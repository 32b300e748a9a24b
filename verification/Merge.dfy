/** Merging verified scenarios into the primary artifact: each becomes a branch after the step where it was seen. */
module Merge {
  import opened Prelude
  import opened Capability

  datatype Kind = OutcomeBranch | FailureBranch | RecoveryBranch

  type Steps = n: nat | n >= 1 witness 1

  /** The blocker a discovery asserted, after how many shared steps. */
  datatype Observed = Observed(after: Steps, condition: Condition)

  datatype Discovered = Verified(artifact: Artifact, branch: Option<Observed>) | Unverified

  datatype Scenario = Scenario(kind: Kind, code: Id, description: string, result: Discovered)

  datatype MergeError =
    | NoVerifiedEvidence
    | ContractMismatch
    | MarkerMissing
    | PrefixMismatch
    | MarkerAbsent
    | MarkerMismatch
    | NotDistinctive
    | NotTerminal
    | NotDistinctBranch
    | NoStateToRejoin
    | NoCorrectiveSteps
    | CorrectiveRisk
    | NoRestoredState
    | InvalidArtifact

  /** What the merge loop updates. */
  datatype Draft = Draft(outcomes: seq<Branch>, failures: seq<Branch>, recoveries: seq<Recovery>, steps: seq<Step>)

  function DraftOf(a: Artifact): Draft {
    Draft(a.outcomes, a.failures, a.recoveries, a.steps)
  }

  // ---------------------------------------------------------------- the shared prefix

  function Identity(target: Option<Locator>): Option<string> {
    if target.None? then None else Some(target.value.identity)
  }

  /** The same operation on the same control; descriptions are prose, not identity. */
  predicate SameOperation(a: Step, b: Step) {
    a.body.action == b.body.action && Identity(a.body.target) == Identity(b.body.target) && a.body.risk == b.body.risk
  }

  function SharedPrefix(a: seq<Step>, b: seq<Step>): (n: nat)
    ensures n <= |a| && n <= |b|
    ensures forall i :: 0 <= i < n ==> SameOperation(a[i], b[i])
    ensures n < |a| && n < |b| ==> !SameOperation(a[n], b[n])
  {
    if a == [] || b == [] || !SameOperation(a[0], b[0]) then 0 else 1 + SharedPrefix(a[1..], b[1..])
  }

  /** The longest common prefix is the only number with the properties its loop establishes. */
  lemma SharedPrefixIsUnique(a: seq<Step>, b: seq<Step>, n: nat)
    requires n <= |a| && n <= |b|
    requires forall i :: 0 <= i < n ==> SameOperation(a[i], b[i])
    requires n < |a| && n < |b| ==> !SameOperation(a[n], b[n])
    ensures n == SharedPrefix(a, b)
  {
  }

  method SharedPrefixLength(primary: seq<Step>, scenario: seq<Step>) returns (length: nat)
    ensures length == SharedPrefix(primary, scenario)
  {
    length := 0;
    while length < |primary| && length < |scenario|
      invariant length <= |primary| && length <= |scenario|
      invariant forall i :: 0 <= i < length ==> SameOperation(primary[i], scenario[i])
    {
      if !SameOperation(primary[length], scenario[length]) { break; }
      length := length + 1;
    }
    SharedPrefixIsUnique(primary, scenario, length);
  }

  // ---------------------------------------------------------------- one scenario

  predicate SameContract(primary: Artifact, source: Artifact) {
    && source.capability == primary.capability
    && source.family == primary.family
    && source.entryPoint == primary.entryPoint
    && source.inputs == primary.inputs
    && source.outputs == primary.outputs
  }

  /** A branch must be recognized by something that is positively there. */
  predicate Distinctive(c: Condition) {
    c.Text? || c.RenderedText? || c.VisualText? || (c.Element? && c.state !in {Absent, Hidden})
  }

  predicate TooRisky(steps: seq<Step>) {
    exists k :: 0 <= k < |steps| && Rank(steps[k].body.risk) >= Rank(Sensitive)
  }

  predicate Restores(steps: seq<Step>, blocked: Condition) {
    exists k, p :: 0 <= k < |steps| && 0 <= p < |steps[k].body.postconditions|
                   && ProvesDistinctSurface(steps[k].body.postconditions[p], blocked)
  }

  function Renamed(steps: seq<Step>, code: Id): (renamed: seq<Step>)
    ensures |renamed| == |steps|
    ensures forall k :: 0 <= k < |steps| ==>
              renamed[k] == Step("recovery_" + code + "_" + Decimal(k + 1), steps[k].body, [], [], [])
  {
    seq(|steps|, k requires 0 <= k < |steps| => Step("recovery_" + code + "_" + Decimal(k + 1), steps[k].body, [], [],
                                                     []))
  }

  function Attach(draft: Draft, s: Scenario, after: Steps, condition: Condition, corrective: seq<Step>)
    : (attached: Result<Draft, MergeError>)
    requires after <= |draft.steps|
    ensures attached.Ok? ==> |attached.value.steps| == |draft.steps|
  {
    var step := draft.steps[after - 1];
    var seen := SurfaceConditionsOf(step.body.postconditions);
    match s.kind
    case OutcomeBranch =>
      if condition in seen then Err(NotDistinctBranch) else
      Ok(draft.(outcomes := draft.outcomes + [Branch(s.code, s.description, condition, [step.id])],
                steps := draft.steps[after - 1 := step.(outcomeRefs := step.outcomeRefs + [s.code])]))
    case FailureBranch =>
      if condition in seen then Err(NotDistinctBranch) else
      Ok(draft.(failures := draft.failures + [Branch(s.code, s.description, condition, [step.id])],
                steps := draft.steps[after - 1 := step.(failureRefs := step.failureRefs + [s.code])]))
    case RecoveryBranch =>
      if after >= |draft.steps| then Err(NoStateToRejoin)
      else if corrective == [] then Err(NoCorrectiveSteps)
      else if TooRisky(corrective) then Err(CorrectiveRisk)
      else if !Restores(corrective, condition) then Err(NoRestoredState)
      else Ok(draft.(
        recoveries := draft.recoveries
          + [Recovery(s.code, condition, 1, Renamed(corrective, s.code), draft.steps[after].id)],
        steps := draft.steps[after - 1 := step.(recoveryRefs := step.recoveryRefs + [s.code])]))
  }

  function Admit(primary: Artifact, draft: Draft, s: Scenario): (admitted: Result<Draft, MergeError>)
    requires |draft.steps| == |primary.steps|
    ensures admitted.Ok? ==> |admitted.value.steps| == |primary.steps|
  {
    if s.result.Unverified? then Err(NoVerifiedEvidence)
    else if !SameContract(primary, s.result.artifact) then Err(ContractMismatch)
    else if s.result.branch.None? then Err(MarkerMissing)
    else
      var source, observed := s.result.artifact, s.result.branch.value;
      if SharedPrefix(primary.steps, source.steps) < observed.after then Err(PrefixMismatch)
      else if observed.after >= |source.steps| then Err(MarkerAbsent)
      else if source.steps[observed.after].body.action != Assert(observed.condition) then Err(MarkerMismatch)
      else if !Distinctive(observed.condition) then Err(NotDistinctive)
      else if !s.kind.RecoveryBranch? && |source.steps| != observed.after + 1 then Err(NotTerminal)
      else Attach(draft, s, observed.after, observed.condition, source.steps[observed.after + 1..])
  }

  // ---------------------------------------------------------------- all scenarios

  function Fold(primary: Artifact, scenarios: seq<Scenario>): (folded: Result<Draft, MergeError>)
    ensures folded.Ok? ==> |folded.value.steps| == |primary.steps|
  {
    if scenarios == [] then Ok(DraftOf(primary)) else
    var draft :- Fold(primary, scenarios[..|scenarios| - 1]);
    Admit(primary, draft, scenarios[|scenarios| - 1])
  }

  function KindsOf(recoveries: seq<Recovery>): set<string> {
    set r, s | r in recoveries && s in r.steps :: ActionKind(s.body.action)
  }

  function RoutesOf(scenarios: seq<Scenario>): set<string> {
    set s, route | s in scenarios && s.result.Verified? && route in s.result.artifact.allowedRoutes :: route
  }

  function Built(primary: Artifact, draft: Draft, scenarios: seq<Scenario>): Artifact {
    primary.(outcomes := draft.outcomes, failures := draft.failures, recoveries := draft.recoveries,
             steps := draft.steps,
             allowedActions := primary.allowedActions + KindsOf(draft.recoveries),
             allowedRoutes := primary.allowedRoutes + RoutesOf(scenarios),
             hash := None)
  }

  /** Nothing merged leaves the artifact as it was; anything else is validated as a whole. */
  function Finish(primary: Artifact, draft: Draft, scenarios: seq<Scenario>): Result<Artifact, MergeError> {
    if draft.outcomes == [] && draft.failures == [] && draft.recoveries == [] then Ok(primary)
    else if !Validated(Built(primary, draft, scenarios)) then Err(InvalidArtifact)
    else Ok(Built(primary, draft, scenarios))
  }

  function Merged(primary: Artifact, scenarios: seq<Scenario>): Result<Artifact, MergeError> {
    var draft :- Fold(primary, scenarios);
    Finish(primary, draft, scenarios)
  }

  lemma {:induction false} FoldFails(primary: Artifact, scenarios: seq<Scenario>, n: nat)
    requires n <= |scenarios| && Fold(primary, scenarios[..n]).Err?
    ensures Fold(primary, scenarios) == Fold(primary, scenarios[..n])
  {
    if n < |scenarios| {
      var shorter := scenarios[..|scenarios| - 1];
      assert shorter[..n] == scenarios[..n];
      FoldFails(primary, shorter, n);
    } else {
      assert scenarios[..n] == scenarios;
    }
  }

  lemma FoldOne(primary: Artifact, scenarios: seq<Scenario>, n: nat)
    requires n < |scenarios| && Fold(primary, scenarios[..n]).Ok?
    ensures Fold(primary, scenarios[..n + 1]) == Admit(primary, Fold(primary, scenarios[..n]).value, scenarios[n])
  {
    assert scenarios[..n + 1][..n] == scenarios[..n];
  }

  method MergeScenarios(primary: Artifact, scenarios: seq<Scenario>) returns (merged: Result<Artifact, MergeError>)
    ensures merged == Merged(primary, scenarios)
  {
    var outcomes, failures := primary.outcomes, primary.failures;
    var recoveries, steps := primary.recoveries, primary.steps;
    var n := 0;
    while n < |scenarios|
      invariant n <= |scenarios| && |steps| == |primary.steps|
      invariant Fold(primary, scenarios[..n]) == Ok(Draft(outcomes, failures, recoveries, steps))
    {
      var s := scenarios[n];
      FoldOne(primary, scenarios, n);
      var admitted := AdmitScenario(primary, Draft(outcomes, failures, recoveries, steps), s);
      if admitted.Err? {
        FoldFails(primary, scenarios, n + 1);
        return Err(admitted.error);
      }
      var Draft(outcomes', failures', recoveries', steps') := admitted.value;
      outcomes, failures, recoveries, steps := outcomes', failures', recoveries', steps';
      n := n + 1;
    }
    assert scenarios[..n] == scenarios;
    merged := Finish(primary, Draft(outcomes, failures, recoveries, steps), scenarios);
  }

  method AdmitScenario(primary: Artifact, draft: Draft, s: Scenario) returns (admitted: Result<Draft, MergeError>)
    requires |draft.steps| == |primary.steps|
    ensures admitted == Admit(primary, draft, s)
  {
    if s.result.Unverified? { return Err(NoVerifiedEvidence); }
    var source := s.result.artifact;
    if !SameContract(primary, source) { return Err(ContractMismatch); }
    if s.result.branch.None? { return Err(MarkerMissing); }
    var observed := s.result.branch.value;
    var length := SharedPrefixLength(primary.steps, source.steps);
    if length < observed.after { return Err(PrefixMismatch); }
    if observed.after >= |source.steps| { return Err(MarkerAbsent); }
    if source.steps[observed.after].body.action != Assert(observed.condition) { return Err(MarkerMismatch); }
    if !Distinctive(observed.condition) { return Err(NotDistinctive); }
    if !s.kind.RecoveryBranch? && |source.steps| != observed.after + 1 { return Err(NotTerminal); }
    admitted := Attach(draft, s, observed.after, observed.condition, source.steps[observed.after + 1..]);
  }

  // ---------------------------------------------------------------- what a merge may change

  /** The recovery a new reference on step `i` names resumes at the very next step. */
  ghost predicate ResumesNext(base: Artifact, d: Draft, i: nat, ref: Id) {
    && i + 1 < |d.steps|
    && exists r :: |base.recoveries| <= r < |d.recoveries| && d.recoveries[r].id == ref
                   && d.recoveries[r].resumeAt == d.steps[i + 1].id
  }

  ghost predicate StepGrown(base: Artifact, d: Draft, i: nat)
    requires i < |base.steps| == |d.steps|
    requires base.outcomes <= d.outcomes && base.failures <= d.failures
  {
    var s, t := base.steps[i], d.steps[i];
    && t.id == s.id && t.body == s.body
    && s.outcomeRefs <= t.outcomeRefs && s.failureRefs <= t.failureRefs && s.recoveryRefs <= t.recoveryRefs
    && (forall ref <- t.outcomeRefs[|s.outcomeRefs|..] :: ref in BranchCodes(d.outcomes[|base.outcomes|..]))
    && (forall ref <- t.failureRefs[|s.failureRefs|..] :: ref in BranchCodes(d.failures[|base.failures|..]))
    && (forall ref <- t.recoveryRefs[|s.recoveryRefs|..] :: ResumesNext(base, d, i, ref))
  }

  /** Merging only appends: new branches, and references to them on steps that stay as they were. */
  ghost predicate Grown(base: Artifact, d: Draft) {
    && |d.steps| == |base.steps|
    && base.outcomes <= d.outcomes && base.failures <= d.failures && base.recoveries <= d.recoveries
    && (forall b <- d.outcomes[|base.outcomes|..] :: Distinctive(b.detect))
    && (forall b <- d.failures[|base.failures|..] :: Distinctive(b.detect))
    && (forall r <- d.recoveries[|base.recoveries|..] :: Distinctive(r.trigger) && r.maxUses == 1)
    && (forall i :: 0 <= i < |base.steps| ==> StepGrown(base, d, i))
  }

  lemma OutcomeGrows(base: Artifact, d: Draft, e: Draft, b: Branch, at: nat)
    requires Grown(base, d) && at < |d.steps| && Distinctive(b.detect)
    requires e == d.(outcomes := d.outcomes + [b],
                     steps := d.steps[at := d.steps[at].(outcomeRefs := d.steps[at].outcomeRefs + [b.code])])
    ensures Grown(base, e)
  {
    var n := |base.outcomes|;
    assert e.outcomes[n..] == d.outcomes[n..] + [b];
    assert BranchCodes(e.outcomes[n..]) == BranchCodes(d.outcomes[n..]) + [b.code];
    forall i | 0 <= i < |base.steps| ensures StepGrown(base, e, i) {
      assert StepGrown(base, d, i);
      var s, t := base.steps[i], d.steps[i];
      if i == at {
        assert e.steps[i].outcomeRefs[|s.outcomeRefs|..] == t.outcomeRefs[|s.outcomeRefs|..] + [b.code];
      }
      forall ref <- t.recoveryRefs[|s.recoveryRefs|..] ensures ResumesNext(base, e, i, ref) {
        assert ResumesNext(base, d, i, ref);
      }
    }
  }

  lemma FailureGrows(base: Artifact, d: Draft, e: Draft, b: Branch, at: nat)
    requires Grown(base, d) && at < |d.steps| && Distinctive(b.detect)
    requires e == d.(failures := d.failures + [b],
                     steps := d.steps[at := d.steps[at].(failureRefs := d.steps[at].failureRefs + [b.code])])
    ensures Grown(base, e)
  {
    var n := |base.failures|;
    assert e.failures[n..] == d.failures[n..] + [b];
    assert BranchCodes(e.failures[n..]) == BranchCodes(d.failures[n..]) + [b.code];
    forall i | 0 <= i < |base.steps| ensures StepGrown(base, e, i) {
      assert StepGrown(base, d, i);
      var s, t := base.steps[i], d.steps[i];
      if i == at {
        assert e.steps[i].failureRefs[|s.failureRefs|..] == t.failureRefs[|s.failureRefs|..] + [b.code];
      }
      forall ref <- t.recoveryRefs[|s.recoveryRefs|..] ensures ResumesNext(base, e, i, ref) {
        assert ResumesNext(base, d, i, ref);
      }
    }
  }

  lemma RecoveryGrows(base: Artifact, d: Draft, e: Draft, r: Recovery, at: nat)
    requires Grown(base, d) && at + 1 < |d.steps| && Distinctive(r.trigger) && r.maxUses == 1
             && r.resumeAt == d.steps[at + 1].id
    requires e == d.(recoveries := d.recoveries + [r],
                     steps := d.steps[at := d.steps[at].(recoveryRefs := d.steps[at].recoveryRefs + [r.id])])
    ensures Grown(base, e)
  {
    var n := |base.recoveries|;
    assert e.recoveries[n..] == d.recoveries[n..] + [r];
    assert e.recoveries[|d.recoveries|] == r;
    forall i | 0 <= i < |base.steps| ensures StepGrown(base, e, i) {
      assert StepGrown(base, d, i);
      var s, t := base.steps[i], d.steps[i];
      if i == at {
        assert e.steps[i].recoveryRefs[|s.recoveryRefs|..] == t.recoveryRefs[|s.recoveryRefs|..] + [r.id];
      }
      forall ref <- e.steps[i].recoveryRefs[|s.recoveryRefs|..] ensures ResumesNext(base, e, i, ref) {
        if ref in t.recoveryRefs[|s.recoveryRefs|..] {
          assert ResumesNext(base, d, i, ref);
          var k :| |base.recoveries| <= k < |d.recoveries| && d.recoveries[k].id == ref
                   && d.recoveries[k].resumeAt == d.steps[i + 1].id;
          assert e.recoveries[k] == d.recoveries[k];
        }
      }
    }
  }

  lemma AttachGrows(base: Artifact, d: Draft, s: Scenario, after: Steps, condition: Condition, corrective: seq<Step>,
                    e: Draft)
    requires Grown(base, d) && after <= |d.steps| && Distinctive(condition)
    requires Attach(d, s, after, condition, corrective) == Ok(e)
    ensures Grown(base, e)
  {
    var step := d.steps[after - 1];
    match s.kind
    case OutcomeBranch => OutcomeGrows(base, d, e, Branch(s.code, s.description, condition, [step.id]), after - 1);
    case FailureBranch => FailureGrows(base, d, e, Branch(s.code, s.description, condition, [step.id]), after - 1);
    case RecoveryBranch =>
      RecoveryGrows(base, d, e, Recovery(s.code, condition, 1, Renamed(corrective, s.code), d.steps[after].id),
                    after - 1);
  }

  lemma AdmitAttaches(primary: Artifact, d: Draft, s: Scenario)
    requires |d.steps| == |primary.steps| && Admit(primary, d, s).Ok?
    ensures s.result.Verified? && s.result.branch.Some?
    ensures
      var source, observed := s.result.artifact, s.result.branch.value;
      && observed.after <= |d.steps| && observed.after < |source.steps| && Distinctive(observed.condition)
      && Admit(primary, d, s) == Attach(d, s, observed.after, observed.condition, source.steps[observed.after + 1..])
  {
  }

  lemma NothingGrows(primary: Artifact)
    ensures Grown(primary, DraftOf(primary))
  {
  }

  lemma AdmitGrows(primary: Artifact, d: Draft, s: Scenario, e: Draft)
    requires |d.steps| == |primary.steps| && Grown(primary, d) && Admit(primary, d, s) == Ok(e)
    ensures Grown(primary, e)
  {
    AdmitAttaches(primary, d, s);
    var observed := s.result.branch.value;
    AttachGrows(primary, d, s, observed.after, observed.condition, s.result.artifact.steps[observed.after + 1..], e);
  }

  lemma FoldLast(primary: Artifact, scenarios: seq<Scenario>)
    requires scenarios != [] && Fold(primary, scenarios).Ok?
    ensures
      var rest := Fold(primary, scenarios[..|scenarios| - 1]);
      rest.Ok? && Fold(primary, scenarios) == Admit(primary, rest.value, scenarios[|scenarios| - 1])
  {
  }

  lemma {:induction false} FoldGrows(primary: Artifact, scenarios: seq<Scenario>)
    requires Fold(primary, scenarios).Ok?
    ensures Grown(primary, Fold(primary, scenarios).value)
  {
    if scenarios == [] {
      NothingGrows(primary);
    } else {
      var rest := scenarios[..|scenarios| - 1];
      FoldLast(primary, scenarios);
      FoldGrows(primary, rest);
      AdmitGrows(primary, Fold(primary, rest).value, scenarios[|scenarios| - 1], Fold(primary, scenarios).value);
    }
  }

  // ---------------------------------------------------------------- every scenario has its place

  /** The scenario's branch is declared, and its code hangs on the very step after which its blocker was seen. */
  ghost predicate Placed(d: Draft, s: Scenario) {
    && s.result.Verified? && s.result.branch.Some? && s.result.branch.value.after <= |d.steps|
    && var after, condition := s.result.branch.value.after, s.result.branch.value.condition;
    && var step := d.steps[after - 1];
    match s.kind
    case OutcomeBranch =>
      Branch(s.code, s.description, condition, [step.id]) in d.outcomes && s.code in step.outcomeRefs
    case FailureBranch =>
      Branch(s.code, s.description, condition, [step.id]) in d.failures && s.code in step.failureRefs
    case RecoveryBranch =>
      && after < |d.steps| && after < |s.result.artifact.steps| && s.code in step.recoveryRefs
      && Recovery(s.code, condition, 1, Renamed(s.result.artifact.steps[after + 1..], s.code),
                  d.steps[after].id) in d.recoveries
  }

  /** A later draft declares no less, and keeps the identity and the references of every step. */
  ghost predicate Onward(d: Draft, e: Draft) {
    && |d.steps| == |e.steps|
    && d.outcomes <= e.outcomes && d.failures <= e.failures && d.recoveries <= e.recoveries
    && (forall i :: 0 <= i < |d.steps| ==>
          && e.steps[i].id == d.steps[i].id
          && d.steps[i].outcomeRefs <= e.steps[i].outcomeRefs
          && d.steps[i].failureRefs <= e.steps[i].failureRefs
          && d.steps[i].recoveryRefs <= e.steps[i].recoveryRefs)
  }

  lemma PlacedStays(d: Draft, e: Draft, s: Scenario)
    requires Placed(d, s) && Onward(d, e)
    ensures Placed(e, s)
  {
    assert forall b <- d.outcomes :: b in e.outcomes;
    assert forall b <- d.failures :: b in e.failures;
    assert forall r <- d.recoveries :: r in e.recoveries;
  }

  ghost predicate AddsOne(d: Draft, e: Draft, kind: Kind) {
    && |e.outcomes| == |d.outcomes| + (if kind.OutcomeBranch? then 1 else 0)
    && |e.failures| == |d.failures| + (if kind.FailureBranch? then 1 else 0)
    && |e.recoveries| == |d.recoveries| + (if kind.RecoveryBranch? then 1 else 0)
  }

  lemma AttachPlaces(d: Draft, s: Scenario)
    requires s.result.Verified? && s.result.branch.Some?
    requires s.result.branch.value.after <= |d.steps| && s.result.branch.value.after < |s.result.artifact.steps|
    requires Attach(d, s, s.result.branch.value.after, s.result.branch.value.condition,
                    s.result.artifact.steps[s.result.branch.value.after + 1..]).Ok?
    ensures
      var e := Attach(d, s, s.result.branch.value.after, s.result.branch.value.condition,
                      s.result.artifact.steps[s.result.branch.value.after + 1..]).value;
      Placed(e, s) && Onward(d, e) && AddsOne(d, e, s.kind)
  {
  }

  /** In an accepted merge every scenario has its branch, where it was seen, on exactly what was asserted there. */
  lemma {:induction false} EveryScenarioIsPlaced(primary: Artifact, scenarios: seq<Scenario>)
    requires Fold(primary, scenarios).Ok?
    ensures forall s <- scenarios :: Placed(Fold(primary, scenarios).value, s)
  {
    if scenarios != [] {
      var rest, last := scenarios[..|scenarios| - 1], scenarios[|scenarios| - 1];
      var d, e := Fold(primary, rest).value, Fold(primary, scenarios).value;
      EveryScenarioIsPlaced(primary, rest);
      AdmitAttaches(primary, d, last);
      AttachPlaces(d, last);
      forall s <- scenarios ensures Placed(e, s) {
        if s in rest {
          PlacedStays(d, e, s);
        }
      }
    }
  }

  function CountKind(scenarios: seq<Scenario>, kind: Kind): nat {
    if scenarios == [] then 0
    else CountKind(scenarios[..|scenarios| - 1], kind) + (if scenarios[|scenarios| - 1].kind == kind then 1 else 0)
  }

  /** And nothing else is added: one branch for each scenario. */
  lemma {:induction false} NothingElseIsAdded(primary: Artifact, scenarios: seq<Scenario>)
    requires Fold(primary, scenarios).Ok?
    ensures
      var d := Fold(primary, scenarios).value;
      && |d.outcomes| == |primary.outcomes| + CountKind(scenarios, OutcomeBranch)
      && |d.failures| == |primary.failures| + CountKind(scenarios, FailureBranch)
      && |d.recoveries| == |primary.recoveries| + CountKind(scenarios, RecoveryBranch)
  {
    if scenarios != [] {
      var d, last := Fold(primary, scenarios[..|scenarios| - 1]).value, scenarios[|scenarios| - 1];
      NothingElseIsAdded(primary, scenarios[..|scenarios| - 1]);
      AdmitAttaches(primary, d, last);
      AttachPlaces(d, last);
    }
  }

  /** `more` is a validated artifact that keeps all of `base` and appends distinctive branches to it. */
  ghost predicate Extends(base: Artifact, more: Artifact) {
    && Validated(base) && Validated(more) && Grown(base, DraftOf(more))
    && more == base.(outcomes := more.outcomes, failures := more.failures, recoveries := more.recoveries,
                     steps := more.steps,
                     allowedActions := more.allowedActions, allowedRoutes := more.allowedRoutes, hash := more.hash)
  }

  /** A merged artifact extends its primary. */
  lemma MergeExtends(primary: Artifact, scenarios: seq<Scenario>)
    requires Validated(primary) && Merged(primary, scenarios).Ok?
    ensures Extends(primary, Merged(primary, scenarios).value)
  {
    FoldGrows(primary, scenarios);
    var draft, merged := Fold(primary, scenarios).value, Merged(primary, scenarios).value;
    if merged == primary {
      assert Grown(primary, DraftOf(primary)) by {
        FoldGrows(primary, []);
      }
    } else {
      assert DraftOf(merged) == draft;
    }
  }

  // ---------------------------------------------------------------- recoveries stay forward

  lemma OwnReference(base: Artifact, more: Artifact, i: nat, r: nat)
    requires Extends(base, more) && i < |base.steps| && r < |more.recoveries|
    requires more.recoveries[r].id in base.steps[i].recoveryRefs
    ensures r < |base.recoveries|
  {
    var id := more.recoveries[r].id;
    assert RefsKnown(base, base.steps[i]);
    var k :| 0 <= k < |base.recoveries| && base.recoveries[k].id == id;
    assert RecoveryIds(more.recoveries)[k] == id == RecoveryIds(more.recoveries)[r];
  }

  lemma SameMainStep(a: Artifact, i: nat, j: nat)
    requires Unique(StepIds(a.steps + RecoverySteps(a.recoveries)))
    requires i < |a.steps| && j < |a.steps| && a.steps[i].id == a.steps[j].id
    ensures i == j
  {
    var ids := StepIds(a.steps + RecoverySteps(a.recoveries));
    assert ids[i] == ids[j];
  }

  lemma NewOnes(base: seq<Id>, more: seq<Id>, id: Id)
    requires base <= more && id in more && id !in base
    ensures id in more[|base|..]
  {
    assert more == base + more[|base|..];
  }

  lemma OneRecovery(recoveries: seq<Recovery>, k: nat, r: nat)
    requires Unique(RecoveryIds(recoveries)) && k < |recoveries| && r < |recoveries|
             && recoveries[k].id == recoveries[r].id
    ensures k == r
  {
    assert RecoveryIds(recoveries)[k] == RecoveryIds(recoveries)[r];
  }

  /** A reference that an extension adds to a step is to a new recovery, which resumes at the next step. */
  lemma AddedReference(base: Artifact, more: Artifact, i: nat, r: nat)
    requires Extends(base, more) && i < |base.steps| == |more.steps| && r < |more.recoveries|
    requires more.recoveries[r].id in more.steps[i].recoveryRefs && more.recoveries[r].id !in base.steps[i].recoveryRefs
    ensures i + 1 < |more.steps| && more.recoveries[r].resumeAt == more.steps[i + 1].id
  {
    var d, id, n := DraftOf(more), more.recoveries[r].id, |base.steps[i].recoveryRefs|;
    assert StepGrown(base, d, i);
    NewOnes(base.steps[i].recoveryRefs, more.steps[i].recoveryRefs, id);
    assert ResumesNext(base, d, i, id);
    var k: nat :| |base.recoveries| <= k < |d.recoveries| && d.recoveries[k].id == id
      && d.recoveries[k].resumeAt == d.steps[i + 1].id;
    OneRecovery(more.recoveries, k, r);
  }

  /** An extension leads back to step `i` exactly where its base does. */
  lemma ExtensionKeepsPast(base: Artifact, more: Artifact, i: nat)
    requires Extends(base, more) && i < |base.steps| == |more.steps|
    ensures Past(more, i) <==> Past(base, i)
  {
    var d := DraftOf(more);
    if Past(more, i) {
      forall j, k, r | i <= j < |base.steps| && 0 <= k <= i && 0 <= r < |base.recoveries|
        ensures !(base.recoveries[r].id in base.steps[j].recoveryRefs
                  && base.recoveries[r].resumeAt == base.steps[k].id)
      {
        assert StepGrown(base, d, j) && StepGrown(base, d, k);
        assert more.recoveries[r] == base.recoveries[r];
      }
    }
    if Past(base, i) {
      forall j, k, r | i <= j < |more.steps| && 0 <= k <= i && 0 <= r < |more.recoveries|
        ensures !(more.recoveries[r].id in more.steps[j].recoveryRefs
                  && more.recoveries[r].resumeAt == more.steps[k].id)
      {
        if more.recoveries[r].id in more.steps[j].recoveryRefs && more.recoveries[r].resumeAt == more.steps[k].id {
          ReferenceKeepsPast(base, more, i, j, k, r);
        }
      }
    }
  }

  lemma ReferenceKeepsPast(base: Artifact, more: Artifact, i: nat, j: nat, k: nat, r: nat)
    requires Extends(base, more) && k <= i <= j < |base.steps| == |more.steps| && r < |more.recoveries|
    requires more.recoveries[r].id in more.steps[j].recoveryRefs && more.recoveries[r].resumeAt == more.steps[k].id
    ensures !Past(base, i)
  {
    var d := DraftOf(more);
    assert StepGrown(base, d, j) && StepGrown(base, d, k);
    if more.recoveries[r].id in base.steps[j].recoveryRefs {
      OwnReference(base, more, j, r);
      assert base.recoveries[r] == more.recoveries[r];
    } else {
      AddedReference(base, more, j, r);
      SameMainStep(more, j + 1, k);
    }
  }

  /** Every recovery that merging builds resumes past the steps that refer to it, and the primary's own still do. */
  lemma MergeKeepsForwardOnly(primary: Artifact, scenarios: seq<Scenario>)
    requires Validated(primary) && ForwardOnly(primary) && Merged(primary, scenarios).Ok?
    ensures ForwardOnly(Merged(primary, scenarios).value)
  {
    MergeExtends(primary, scenarios);
    var merged := Merged(primary, scenarios).value;
    ForwardIsPast(primary);
    ForwardIsPast(merged);
    forall i | 0 <= i < |merged.steps| ensures Past(merged, i) {
      ExtensionKeepsPast(primary, merged, i);
    }
  }
}
