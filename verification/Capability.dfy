/** Capability artifacts: conditions, actions, steps, recoveries, and what a validated artifact guarantees. */
module Capability {
  import opened Prelude

  // ---------------------------------------------------------------- conditions

  datatype ElementState = Exists | Absent | Visible | Hidden | Enabled | Disabled

  /** `identity` stands for scope, candidates and state constraints; the description is prose. */
  datatype Locator = Locator(description: string, identity: string)

  datatype Condition =
    | Route(pattern: string)
    | Text(value: string)
    | RenderedText(rendered: string)
    | VisualText(visual: string)
    | Element(target: Locator, state: ElementState)
    | OutputValid(output: string)
    | OutputEquals(name: string, expected: string)
    | IdentityMatches(extracted: string, inputPath: string)
    | All(every: seq<Condition>)
    | Any(some: seq<Condition>)
    | Not(negated: Condition)

  predicate SurfaceLeaf(c: Condition) {
    c.Route? || c.Text? || c.RenderedText? || c.VisualText? || c.Element?
  }

  /** The names of the outputs a condition reads. */
  function ConditionOutputs(c: Condition): set<string> {
    match c
    case All(items) => set i: nat, o | i < |items| && o in ConditionOutputs(items[i]) :: o
    case Any(items) => set i: nat, o | i < |items| && o in ConditionOutputs(items[i]) :: o
    case Not(item) => ConditionOutputs(item)
    case IdentityMatches(output, _) => {output}
    case OutputValid(output) => {output}
    case OutputEquals(output, _) => {output}
    case _ => {}
  }

  predicate ContainsIdentity(c: Condition) {
    match c
    case IdentityMatches(_, _) => true
    case All(items) => exists i :: 0 <= i < |items| && ContainsIdentity(items[i])
    case Any(items) => exists i :: 0 <= i < |items| && ContainsIdentity(items[i])
    case Not(item) => ContainsIdentity(item)
    case _ => false
  }

  function SurfaceConditions(c: Condition): seq<Condition> {
    if SurfaceLeaf(c) then [c] else
    match c
    case All(items) => SurfaceConditionsOf(items)
    case Any(items) => SurfaceConditionsOf(items)
    case Not(item) => if SurfaceConditions(item) != [] then [c] else []
    case _ => []
  }

  function SurfaceConditionsOf(items: seq<Condition>): seq<Condition> {
    if items == [] then [] else SurfaceConditions(items[0]) + SurfaceConditionsOf(items[1..])
  }

  /** Does a true `c` always show something about the surface other than `blocked`? */
  predicate ProvesDistinctSurface(c: Condition, blocked: Condition) {
    match c
    case All(items) => exists i :: 0 <= i < |items| && ProvesDistinctSurface(items[i], blocked)
    case Any(items) => forall i :: 0 <= i < |items| ==> ProvesDistinctSurface(items[i], blocked)
    case _ => SurfaceConditions(c) != [] && c != blocked
  }

  // ---------------------------------------------------------------- meaning

  /** Truth of a condition when every condition that is not an all or an any is an independent fact. */
  predicate HoldsUnder(c: Condition, facts: Condition -> bool) {
    match c
    case All(items) => forall i :: 0 <= i < |items| ==> HoldsUnder(items[i], facts)
    case Any(items) => exists i :: 0 <= i < |items| && HoldsUnder(items[i], facts)
    case _ => facts(c)
  }

  /** The leaf occurs in `c` under alls and anys, speaks about the surface, and is not the blocker. */
  predicate DistinctLeaf(leaf: Condition, c: Condition, blocked: Condition) {
    match c
    case All(items) => exists i :: 0 <= i < |items| && DistinctLeaf(leaf, items[i], blocked)
    case Any(items) => exists i :: 0 <= i < |items| && DistinctLeaf(leaf, items[i], blocked)
    case _ => leaf == c && SurfaceConditions(c) != [] && c != blocked
  }

  ghost predicate ShowsDistinct(c: Condition, blocked: Condition, facts: Condition -> bool) {
    exists leaf :: DistinctLeaf(leaf, c, blocked) && facts(leaf)
  }

  lemma {:induction false} ProofShows(c: Condition, blocked: Condition, facts: Condition -> bool)
    requires ProvesDistinctSurface(c, blocked) && HoldsUnder(c, facts)
    ensures ShowsDistinct(c, blocked, facts)
  {
    if c.All? {
      var i :| 0 <= i < |c.every| && ProvesDistinctSurface(c.every[i], blocked);
      ProofShows(c.every[i], blocked, facts);
      var leaf :| DistinctLeaf(leaf, c.every[i], blocked) && facts(leaf);
      assert DistinctLeaf(leaf, c, blocked);
    } else if c.Any? {
      var i :| 0 <= i < |c.some| && HoldsUnder(c.some[i], facts);
      ProofShows(c.some[i], blocked, facts);
      var leaf :| DistinctLeaf(leaf, c.some[i], blocked) && facts(leaf);
      assert DistinctLeaf(leaf, c, blocked);
    } else {
      assert DistinctLeaf(c, c, blocked);
    }
  }

  /** The assignment that denies every surface fact other than the blocker and grants all else. */
  function Adversary(blocked: Condition): Condition -> bool {
    (leaf: Condition) => SurfaceConditions(leaf) == [] || leaf == blocked
  }

  lemma {:induction false} AdversaryHolds(c: Condition, blocked: Condition)
    requires !ProvesDistinctSurface(c, blocked)
    ensures HoldsUnder(c, Adversary(blocked))
  {
    match c
    case All(items) =>
      forall i | 0 <= i < |items|
        ensures HoldsUnder(items[i], Adversary(blocked))
      {
        AdversaryHolds(items[i], blocked);
      }
    case Any(items) =>
      var i :| 0 <= i < |items| && !ProvesDistinctSurface(items[i], blocked);
      AdversaryHolds(items[i], blocked);
    case _ =>
  }

  lemma {:induction false} DistinctLeafIsSurface(leaf: Condition, c: Condition, blocked: Condition)
    requires DistinctLeaf(leaf, c, blocked)
    ensures SurfaceConditions(leaf) != [] && leaf != blocked
  {
    match c
    case All(items) =>
      var i :| 0 <= i < |items| && DistinctLeaf(leaf, items[i], blocked);
      DistinctLeafIsSurface(leaf, items[i], blocked);
    case Any(items) =>
      var i :| 0 <= i < |items| && DistinctLeaf(leaf, items[i], blocked);
      DistinctLeafIsSurface(leaf, items[i], blocked);
    case _ =>
  }

  /**
  The restoration test is exact for every nesting of alls and anys: it succeeds if and only if
  each way of making `c` true makes some surface fact other than the blocker true.
  */
  lemma RestorationTestIsExact(c: Condition, blocked: Condition)
    ensures ProvesDistinctSurface(c, blocked) <==>
            (forall facts: Condition -> bool :: HoldsUnder(c, facts) ==> ShowsDistinct(c, blocked, facts))
  {
    if ProvesDistinctSurface(c, blocked) {
      forall facts: Condition -> bool | HoldsUnder(c, facts)
        ensures ShowsDistinct(c, blocked, facts)
      {
        ProofShows(c, blocked, facts);
      }
    } else {
      AdversaryHolds(c, blocked);
      if ShowsDistinct(c, blocked, Adversary(blocked)) {
        var leaf :| DistinctLeaf(leaf, c, blocked) && Adversary(blocked)(leaf);
        DistinctLeafIsSurface(leaf, c, blocked);
      }
    }
  }

  /** How a session judges a condition: surface facts from the page, the others from outputs and inputs. */
  predicate Judge(c: Condition, facts: Condition -> bool, outputs: map<string, string>, inputs: map<string, string>) {
    match c
    case All(items) => forall i :: 0 <= i < |items| ==> Judge(items[i], facts, outputs, inputs)
    case Any(items) => exists i :: 0 <= i < |items| && Judge(items[i], facts, outputs, inputs)
    case Not(item) => !Judge(item, facts, outputs, inputs)
    case OutputValid(output) => output in outputs && outputs[output] != ""
    case OutputEquals(output, expected) => output in outputs && outputs[output] == expected
    case IdentityMatches(output, path) => output in outputs && path in inputs && outputs[output] == inputs[path]
    case _ => facts(c)
  }

  ghost predicate AgreeOn(names: set<string>, a: map<string, string>, b: map<string, string>) {
    forall n <- names :: (n in a <==> n in b) && (n in a ==> a[n] == b[n])
  }

  /** A condition's truth depends on no output beyond those `ConditionOutputs` lists. */
  lemma {:induction false} JudgeReadsOnlyItsOutputs(c: Condition, facts: Condition -> bool,
                                                    a: map<string, string>, b: map<string, string>,
                                                      inputs: map<string, string>)
    requires AgreeOn(ConditionOutputs(c), a, b)
    ensures Judge(c, facts, a, inputs) == Judge(c, facts, b, inputs)
  {
    match c
    case All(items) =>
      forall i | 0 <= i < |items|
        ensures Judge(items[i], facts, a, inputs) == Judge(items[i], facts, b, inputs)
      {
        JudgeReadsOnlyItsOutputs(items[i], facts, a, b, inputs);
      }
    case Any(items) =>
      forall i | 0 <= i < |items|
        ensures Judge(items[i], facts, a, inputs) == Judge(items[i], facts, b, inputs)
      {
        JudgeReadsOnlyItsOutputs(items[i], facts, a, b, inputs);
      }
    case Not(item) => JudgeReadsOnlyItsOutputs(item, facts, a, b, inputs);
    case _ =>
  }

  // ---------------------------------------------------------------- artifacts

  datatype Risk = ReadOnly | Reversible | Sensitive | Irreversible

  function Rank(r: Risk): nat {
    match r
    case ReadOnly => 0
    case Reversible => 1
    case Sensitive => 2
    case Irreversible => 3
  }

  datatype Operation = Navigate | Click | Type | PressKeys | Select | Scroll | SwitchContext

  /** `Operate` covers the actions a surface is asked to perform; the rest only read. */
  datatype Action =
    | Operate(operation: Operation, argument: string)
    | WaitFor(awaited: Condition)
    | Assert(asserted: Condition)
    | CheckpointReached(checkpoint: string)
    | Extract(extracted: string, transform: string)

  function ActionKind(a: Action): string {
    match a
    case Operate(Navigate, _) => "navigate"
    case Operate(Click, _) => "click"
    case Operate(Type, _) => "type"
    case Operate(PressKeys, _) => "press_keys"
    case Operate(Select, _) => "select"
    case Operate(Scroll, _) => "scroll"
    case Operate(SwitchContext, _) => "switch_context"
    case WaitFor(_) => "wait_for"
    case Assert(_) => "assert"
    case CheckpointReached(_) => "checkpoint"
    case Extract(_, _) => "extract"
  }

  datatype RetryPolicy = RetryPolicy(maxAttempts: nat, retryOn: seq<string>)

  /** What a step does, apart from the branches hung on it. */
  datatype StepBody = StepBody(
    action: Action,
    target: Option<Locator>,
    preconditions: seq<Condition>,
    postconditions: seq<Condition>,
    retry: RetryPolicy,
    risk: Risk)

  datatype Step = Step(
    id: Id,
    body: StepBody,
    recoveryRefs: seq<Id>,
    outcomeRefs: seq<Id>,
    failureRefs: seq<Id>)

  datatype Recovery = Recovery(id: Id, trigger: Condition, maxUses: nat, steps: seq<Step>, resumeAt: Id)

  /** A business outcome or an application failure: a named condition allowed after some steps. */
  datatype Branch = Branch(code: Id, description: string, detect: Condition, allowedAfter: seq<Id>)

  /** `inputs` and `outputs` name the contracts; `version` and `hash` identify the published content. */
  datatype Artifact = Artifact(
    capability: Id,
    version: string,
    family: string,
    risk: Risk,
    entryPoint: string,
    variants: seq<string>,
    inputs: string,
    outputs: string,
    requiredOutputs: seq<string>,
    preconditions: seq<Condition>,
    steps: seq<Step>,
    recoveries: seq<Recovery>,
    outcomes: seq<Branch>,
    failures: seq<Branch>,
    checkpoint: Condition,
    allowedActions: set<string>,
    allowedRoutes: set<string>,
    maximumRisk: Risk,
    hash: Option<string>)

  predicate Unique<T(==)>(items: seq<T>) {
    forall i, j :: 0 <= i < j < |items| ==> items[i] != items[j]
  }

  function StepIds(steps: seq<Step>): (ids: seq<Id>)
    ensures |ids| == |steps|
    ensures forall i :: 0 <= i < |steps| ==> ids[i] == steps[i].id
  {
    seq(|steps|, i requires 0 <= i < |steps| => steps[i].id)
  }

  function BranchCodes(branches: seq<Branch>): (codes: seq<Id>)
    ensures |codes| == |branches|
    ensures forall i :: 0 <= i < |branches| ==> codes[i] == branches[i].code
  {
    seq(|branches|, i requires 0 <= i < |branches| => branches[i].code)
  }

  function RecoveryIds(recoveries: seq<Recovery>): (ids: seq<Id>)
    ensures |ids| == |recoveries|
    ensures forall i :: 0 <= i < |recoveries| ==> ids[i] == recoveries[i].id
  {
    seq(|recoveries|, i requires 0 <= i < |recoveries| => recoveries[i].id)
  }

  function RecoverySteps(recoveries: seq<Recovery>): seq<Step> {
    if recoveries == [] then [] else recoveries[0].steps + RecoverySteps(recoveries[1..])
  }

  predicate RefsKnown(a: Artifact, step: Step) {
    && (forall k :: 0 <= k < |step.recoveryRefs| ==> step.recoveryRefs[k] in RecoveryIds(a.recoveries))
    && (forall k :: 0 <= k < |step.outcomeRefs| ==> step.outcomeRefs[k] in BranchCodes(a.outcomes))
    && (forall k :: 0 <= k < |step.failureRefs| ==> step.failureRefs[k] in BranchCodes(a.failures))
    && Unique(step.recoveryRefs) && Unique(step.outcomeRefs) && Unique(step.failureRefs)
  }

  predicate BranchAllowed(branches: seq<Branch>, ref: Id, step: Id) {
    forall b :: 0 <= b < |branches| && branches[b].code == ref ==> step in branches[b].allowedAfter
  }

  predicate StepAllowed(a: Artifact, step: Step) {
    && RefsKnown(a, step)
    && 1 <= step.body.retry.maxAttempts <= 5
    && (step.body.retry.maxAttempts > 1 <==> step.body.retry.retryOn != [])
    && ActionKind(step.body.action) in a.allowedActions
    && Rank(step.body.risk) <= Rank(a.maximumRisk)
    && (step.body.target.Some? <==>
          || step.body.action.Extract?
          || (step.body.action.Operate? && step.body.action.operation in {Click, Type, Select}))
    && (forall k :: 0 <= k < |step.outcomeRefs| ==> BranchAllowed(a.outcomes, step.outcomeRefs[k], step.id))
    && (forall k :: 0 <= k < |step.failureRefs| ==> BranchAllowed(a.failures, step.failureRefs[k], step.id))
  }

  /** The semantic checks every artifact passes when it is constructed, as far as replay and merging rely on them. */
  predicate Validated(a: Artifact) {
    && |a.steps| > 0
    && a.risk == a.maximumRisk
    && Unique(a.variants) && |a.variants| > 0
    && Unique(StepIds(a.steps + RecoverySteps(a.recoveries)))
    && Unique(RecoveryIds(a.recoveries))
    && Unique(BranchCodes(a.outcomes + a.failures))
    && (forall i :: 0 <= i < |a.steps| ==> StepAllowed(a, a.steps[i]))
    && (forall r :: 0 <= r < |a.recoveries| ==>
          var recovery := a.recoveries[r];
          && 1 <= recovery.maxUses <= 3
          && |recovery.steps| > 0
          && recovery.resumeAt in StepIds(a.steps)
          && (forall k :: 0 <= k < |recovery.steps| ==>
                && StepAllowed(a, recovery.steps[k])
                && recovery.steps[k].recoveryRefs == []
                && Rank(recovery.steps[k].body.risk) < Rank(Sensitive)))
  }

  /** No main step from `i` on refers to a recovery that resumes at step `i` or before it. */
  predicate Past(a: Artifact, i: nat) {
    forall j, k, r | i <= j < |a.steps| && 0 <= k <= i && k < |a.steps| && 0 <= r < |a.recoveries| ::
      !(a.recoveries[r].id in a.steps[j].recoveryRefs && a.recoveries[r].resumeAt == a.steps[k].id)
  }

  /** Recoveries jump forward only: past every main step that refers to them. */
  predicate ForwardOnly(a: Artifact) {
    forall i, j, r | 0 <= i < |a.steps| && 0 <= j < |a.steps| && 0 <= r < |a.recoveries| ::
      a.recoveries[r].id in a.steps[i].recoveryRefs && a.recoveries[r].resumeAt == a.steps[j].id ==> i < j
  }

  /** That is: no main step is ever led back to. */
  lemma ForwardIsPast(a: Artifact)
    ensures ForwardOnly(a) <==> (forall i :: 0 <= i < |a.steps| ==> Past(a, i))
  {
    if forall i :: 0 <= i < |a.steps| ==> Past(a, i) {
      forall i, j, r | 0 <= i < |a.steps| && 0 <= j < |a.steps| && 0 <= r < |a.recoveries|
                       && a.recoveries[r].id in a.steps[i].recoveryRefs && a.recoveries[r].resumeAt == a.steps[j].id
        ensures i < j
      {
        assert Past(a, i);
      }
    }
  }
}
