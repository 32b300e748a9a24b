/**
Discovering a capability or a scenario of one: a loop that lets a model propose actions, executes what
policy allows, and records what it verified; then the compilation of the recordings into an artifact.
Each iteration is given everything the session, the model, the clock and the humans answer in it.
*/
module Discovery {
  import opened Prelude
  import opened Capability
  import Policy
  import Replay
  import opened Merge

  type SurfaceError = Replay.SurfaceError
  type Answer<+T> = Replay.Answer<T>

  // ---------------------------------------------------------------- requests and recordings

  /** The contract the artifact is compiled against. */
  datatype Contract = Contract(capability: Id, inputs: string, outputs: string, declared: set<string>,
                               required: seq<string>)

  datatype ScenarioContext = ScenarioContext(primary: Artifact, kind: Kind)

  datatype Request = Request(
    scenario: Option<ScenarioContext>,
    contract: Contract,
    family: string,
    tenant: string,
    entryPoint: string,
    policy: Policy.EffectivePolicy,
    minimumConfidence: real,
    maxRepeatedState: nat,
    maxRepeatedAction: nat)

  datatype Recording = Recording(action: Action, target: Option<Locator>, risk: Risk, verified: seq<Condition>)

  datatype Act = Act(action: Action, target: Option<Locator>, expected: Option<Condition>, effect: string,
                     declared: Risk, confidence: real)

  datatype Proposal =
    | Escalate(reason: string)
    | Complete
    | Again(step: Id, also: Option<Condition>, intent: string)
    | BranchHere(condition: Condition)
    | Propose(act: Act)

  // ---------------------------------------------------------------- what one iteration is answered

  /** What precedes policy: literals refused, bindings missing, or the target found and its locator captured. */
  datatype Grounding =
    | Refuse(code: string)
    | Throw(error: SurfaceError)
    | Ground(stable: Option<Locator>, resolved: bool, registered: Option<Risk>)

  datatype Effect = Did | DidNot(code: string) | Broke(error: SurfaceError)

  /** `description` names the control, or else the expected effect, case-folded. */
  datatype Acting = Acting(
    grounding: Grounding,
    originAllowed: bool,
    routeAllowed: bool,
    description: string,
    fieldClass: Option<string>,
    effect: Effect,
    valueBound: bool,
    held: Answer<bool>,
    expectedHeld: Answer<bool>,
    fits: bool,
    after: Answer<()>)

  /** A handoff resumes the loop, or the human ends it, or something lapses meanwhile. */
  datatype Handover = Resumed | Ended(code: string)

  datatype Rejoin = Rejoin(targetResolves: bool, preconditionsHold: bool)

  /** `fallback` is the condition read off extracted labels; `acceptable` stands for routes, landmarks and formats. */
  datatype Completing = Completing(
    startRoute: string,
    finalRoute: string,
    routes: set<string>,
    fallback: Option<Condition>,
    acceptable: bool,
    redactedInputs: string,
    redactedOutputs: string,
    private: bool,
    verified: Answer<bool>,
    outputsFit: bool,
    hash: string)

  datatype Turn = Turn(
    expired: bool,
    seen: Answer<string>,
    proposal: Answer<Proposal>,
    handover: Handover,
    rejoin: Rejoin,
    acting: Acting,
    completing: Completing)

  // ---------------------------------------------------------------- one action

  datatype Acted =
    | Recorded(recording: Recording)
    | Raised(error: SurfaceError)
    | Blocked(code: string)
    | Refused(code: string)

  predicate Observational(a: Action) {
    a.Extract? || a.Assert? || a.WaitFor?
  }

  function Rejected(code: string): SurfaceError {
    Replay.SurfaceError(code, true, true, false)
  }

  function OwnCondition(a: Action): Option<Condition> {
    match a
    case Assert(c) => Some(c)
    case WaitFor(c) => Some(c)
    case _ => None
  }

  function ContextOf(p: Act, x: Acting, registered: Option<Risk>): Policy.Context {
    Policy.Context(Policy.Automation, Policy.DiscoveryMode, "automation", x.originAllowed, x.routeAllowed,
                   ActionKind(p.action), x.description, p.declared, registered, x.fieldClass)
  }

  /** Executes one proposed action; the outputs change when a value was extracted, even if a later check fails. */
  function Perform(req: Request, p: Act, x: Acting, outputs: set<string>): (Acted, set<string>) {
    var own := OwnCondition(p.action);
    if own.Some? && !(ConditionOutputs(own.value) <= outputs)
      then (Raised(Rejected("condition_output_unbound")), outputs)
    else if p.action.Extract? && p.action.extracted !in req.contract.declared
      then (Raised(Rejected("output_not_declared")), outputs)
    else
      match x.grounding
      case Refuse(code) => (Refused(code), outputs)
      case Throw(error) => (Raised(error), outputs)
      case Ground(stable, resolved, registered) =>
        var verdict := Policy.Evaluate(req.policy, ContextOf(p, x, registered));
        match verdict.decision
        case Deny => (Refused("policy_blocked"), outputs)
        case RequireApproval =>
          (if verdict.reason == "sensitive_action_requires_approval"
           then Raised(Rejected("risk_classification_unresolved"))
           else Blocked(verdict.reason), outputs)
        case Allow =>
          if p.action.Extract? && !resolved then (Refused("target_absent"), outputs) else
          match x.effect
          case DidNot(code) => (Refused(code), outputs)
          case Broke(error) => (Raised(error), outputs)
          case Did =>
            if p.action.Extract? && x.valueBound then (Raised(Rejected("extraction_locator_value_bound")), outputs)
            else
              (Checked(p, x, stable, verdict.risk), if p.action.Extract? then outputs + {p.action.extracted}
               else outputs)
  }

  /** The checks after the action, and the recording they allow. */
  function Checked(p: Act, x: Acting, stable: Option<Locator>, risk: Risk): Acted {
    var own := OwnCondition(p.action);
    if own.Some? && x.held.Fails? then Raised(x.held.failure)
    else if own.Some? && !x.held.said then Refused("action_condition_not_verified")
    else if p.expected.Some? && x.expectedHeld.Fails? then Raised(x.expectedHeld.failure)
    else if p.expected.Some? && !x.expectedHeld.said then Refused("expected_condition_not_verified")
    else if p.action.Extract? && !x.fits then Refused("output_invalid")
    else if x.after.Fails? then Raised(x.after.failure)
    else Recorded(Recording(p.action, stable, risk, VerifiedBy(p)))
  }

  function VerifiedBy(p: Act): seq<Condition> {
    var own := OwnCondition(p.action);
    (if own.Some? then [own.value] else [])
      + (if p.expected.Some? && p.expected != own then [p.expected.value] else [])
      + (if p.action.Extract? then [OutputValid(p.action.extracted)] else [])
  }

  // ---------------------------------------------------------------- compiling the recordings

  function Pad2(n: nat): string {
    if n < 10 then "0" + Decimal(n) else Decimal(n)
  }

  function CompileStep(index: nat, r: Recording): Step {
    Step("step_" + Pad2(index) + "_" + ActionKind(r.action),
         StepBody(r.action, r.target, [],
                  if r.verified != [] then r.verified else if r.action.Extract? then [OutputValid(r.action.extracted)]
                    else [],
                  RetryPolicy(2, ["target_temporarily_absent"]), r.risk),
         [], [], [])
  }

  function CompileSteps(recordings: seq<Recording>): (steps: seq<Step>)
    ensures |steps| == |recordings|
    ensures forall k :: 0 <= k < |recordings| ==> steps[k] == CompileStep(k + 1, recordings[k])
  {
    seq(|recordings|, k requires 0 <= k < |recordings| => CompileStep(k + 1, recordings[k]))
  }

  function Highest(recordings: seq<Recording>): Risk
    requires recordings != []
  {
    if |recordings| == 1 then recordings[0].risk
    else Policy.Worse(Highest(recordings[..|recordings| - 1]), recordings[|recordings| - 1].risk)
  }

  /** The last condition of the list that shows something about the surface. */
  function LastSurface(conditions: seq<Condition>): Option<Condition> {
    if conditions == [] then None
    else if SurfaceConditions(conditions[|conditions| - 1]) != [] then Some(conditions[|conditions| - 1])
    else LastSurface(conditions[..|conditions| - 1])
  }

  function LatestSurface(recordings: seq<Recording>): Option<Condition> {
    if recordings == [] then None else
    var found := LastSurface(recordings[|recordings| - 1].verified);
    if found.Some? then found else LatestSurface(recordings[..|recordings| - 1])
  }

  predicate Traceable(c: Contract, r: Recording) {
    && (r.action.Extract? || (r.action.Operate? && r.action.operation in {Click, Type, Select}) ==> r.target.Some?)
    && (r.action.Extract? ==> r.action.extracted in c.declared)
  }

  function OutputChecks(names: seq<string>): seq<Condition> {
    seq(|names|, k requires 0 <= k < |names| => OutputValid(names[k]))
  }

  function Kinds(recordings: seq<Recording>): set<string> {
    set r | r in recordings :: ActionKind(r.action)
  }

  function Shown(recordings: seq<Recording>, x: Completing): Option<Condition> {
    var latest := LatestSurface(recordings);
    if latest.Some? then latest else x.fallback
  }

  predicate Compilable(req: Request, recordings: seq<Recording>, x: Completing) {
    var c := req.contract;
    && recordings != [] && (forall r <- recordings :: Traceable(c, r))
    && (forall name <- c.required :: exists r <- recordings :: r.action.Extract? && r.action.extracted == name)
    && Shown(recordings, x).Some? && Rank(Highest(recordings)) <= Rank(req.policy.maximumRisk)
    && Kinds(recordings) <= req.policy.allowedActions && x.acceptable
  }

  function Assemble(req: Request, recordings: seq<Recording>, x: Completing, shown: Condition, risk: Risk): Artifact {
    var c := req.contract;
    Artifact(c.capability, "1.0.0", req.family, risk, req.entryPoint, [req.tenant],
             x.redactedInputs, x.redactedOutputs, c.required, [Route(x.startRoute)], CompileSteps(recordings), [],
               [], [],
             All([Route(x.finalRoute), shown] + OutputChecks(c.required)),
             Kinds(recordings), x.routes, risk, Some(x.hash))
  }

  /** Capability risk is that of the actions executed, not what the planner guessed. */
  function Compile(req: Request, recordings: seq<Recording>, x: Completing): (compiled: Option<Artifact>)
    ensures compiled.Some? ==> compiled.value.steps == CompileSteps(recordings)
  {
    if !Compilable(req, recordings, x) then None else
    var a := Assemble(req, recordings, x, Shown(recordings, x).value, Highest(recordings));
    if Validated(a) then Some(a) else None
  }

  // ---------------------------------------------------------------- the loop

  datatype Result = Success(artifact: Artifact, branch: Option<Observed>) | Failure(code: string)

  datatype State = State(
    recordings: seq<Recording>,
    observed: Option<Observed>,
    outputs: set<string>,
    previous: Option<string>,
    repeatedState: nat,
    lastAction: Option<(Action, Option<string>)>,
    repeatedAction: nat)

  const START := State([], None, {}, None, 0, None, 0)

  datatype Next = More(state: State) | Over(result: Result)

  /** Human edits may invalidate extracted values, so a handoff clears them with the repetition counters. */
  function Handoff(st: State, how: Handover): Next {
    match how
    case Ended(code) => Over(Failure(code))
    case Resumed => More(st.(outputs := {}, previous := None, repeatedState := 0, lastAction := None,
                             repeatedAction := 0))
  }

  function Conclude(req: Request, st: State, x: Completing): Result {
    Judged(Compile(req, st.recordings, x), st.observed, x)
  }

  function Judged(compiled: Option<Artifact>, observed: Option<Observed>, x: Completing): (result: Result)
    ensures result.Success? ==> compiled == Some(result.artifact) && result.branch == observed
  {
    if compiled.None? then Failure("artifact_compilation_failed")
    else if x.private then Failure("artifact_privacy_rejected")
    else if x.verified.Fails? then Failure(x.verified.failure.code)
    else if !x.verified.said then Failure("completion_not_verified")
    else if !x.outputsFit then Failure("completion_output_invalid")
    else Success(compiled.value, observed)
  }

  predicate RestoredAfter(recordings: seq<Recording>, after: nat, blocked: Condition) {
    exists k, p :: after < k < |recordings| && 0 <= p < |recordings[k].verified|
                   && ProvesDistinctSurface(recordings[k].verified[p], blocked)
  }

  predicate RejoinReady(primary: Artifact, after: nat, x: Rejoin) {
    after < |primary.steps| && (primary.steps[after].body.target.Some? ==> x.targetResolves) && x.preconditionsHold
  }

  function Completed(req: Request, st: State, turn: Turn): Next {
    if req.scenario.Some? && st.observed.None? then Over(Failure("scenario_branch_missing"))
    else if
      && req.scenario.Some? && req.scenario.value.kind.RecoveryBranch?
      && (|| !RestoredAfter(st.recordings, st.observed.value.after, st.observed.value.condition)
          || !RejoinReady(req.scenario.value.primary, st.observed.value.after, turn.rejoin))
    then More(st)
    else Over(Conclude(req, st, turn.completing))
  }

  function FindStep(steps: seq<Step>, id: Id): Option<Step> {
    if steps == [] then None else if steps[0].id == id then Some(steps[0]) else FindStep(steps[1..], id)
  }

  function IdentityGuards(conditions: seq<Condition>): seq<Condition> {
    if conditions == [] then []
    else (if ContainsIdentity(conditions[0]) then [conditions[0]] else []) + IdentityGuards(conditions[1..])
  }

  /** A repeated action keeps its identity guards and adds what the model expects. */
  function ExpectedAgain(step: Step, also: Option<Condition>): Option<Condition> {
    var guards := IdentityGuards(step.body.postconditions);
    var required := if also.Some? && also.value !in guards then guards + [also.value] else guards;
    if required == [] then None else if |required| == 1 then Some(required[0]) else Some(All(required))
  }

  datatype Intended = Intends(act: Act, pending: Option<Observed>) | Invalid(code: string)

  /** What a proposal to act asks for: a recorded action again, a branch marker, or a new action. */
  function Intention(req: Request, st: State, p: Proposal): Intended
    requires !p.Escalate? && !p.Complete?
  {
    match p
    case Again(id, also, intent) =>
      var reference := if req.scenario.Some? then FindStep(req.scenario.value.primary.steps, id) else None;
      if reference.None? then Invalid("scenario_reference_invalid")
      else
        var body := reference.value.body;
        Intends(Act(body.action, body.target, ExpectedAgain(reference.value, also), intent, body.risk, 1.0), None)
    case BranchHere(condition) =>
      if req.scenario.None? || st.observed.Some? || st.recordings == [] then Invalid("scenario_branch_invalid")
      else Intends(Act(Assert(condition), None, Some(condition), "Verify the observed branch.", ReadOnly, 1.0),
                   Some(Observed(|st.recordings|, condition)))
    case Propose(act) => Intends(act, None)
  }

  function ActionKey(p: Act): (Action, Option<string>) {
    (p.action, Identity(p.target))
  }

  /** What the loop does with how an action ended. */
  function AfterAct(req: Request, st: State, turn: Turn, acted: Acted, pending: Option<Observed>): Next {
    match acted
    case Refused(code) => Over(Failure(code))
    case Blocked(_) => Handoff(st, turn.handover)
    case Raised(error) =>
      if error.recoverable && error.effectAbsent then More(st.(previous := None, repeatedState := 0))
      else if error.interventionRecommended then Handoff(st, turn.handover)
      else Over(Failure(error.code))
    case Recorded(recording) =>
      var recorded := st.(recordings := st.recordings + [recording],
                          observed := if pending.Some? then pending else st.observed);
      if pending.Some? && req.scenario.Some? && !req.scenario.value.kind.RecoveryBranch?
      then Over(Conclude(req, recorded, turn.completing)) else More(recorded)
  }

  /** An action repeated too often or proposed with too little confidence goes to a human instead. */
  function Tried(req: Request, st: State, turn: Turn, act: Act, pending: Option<Observed>): Next {
    var st := Counted(st, act);
    if st.repeatedAction >= req.maxRepeatedAction || act.confidence < req.minimumConfidence
      then Handoff(st, turn.handover)
    else Executed(req, st, turn, act, pending)
  }

  function Counted(st: State, act: Act): State {
    st.(lastAction := Some(ActionKey(act)),
        repeatedAction := if st.lastAction == Some(ActionKey(act)) then st.repeatedAction + 1 else 0)
  }

  function Executed(req: Request, st: State, turn: Turn, act: Act, pending: Option<Observed>): Next {
    var (acted, outputs) := Perform(req, act, turn.acting, st.outputs);
    AfterAct(req, st.(outputs := outputs), turn, acted, pending)
  }

  function ActOn(req: Request, st: State, turn: Turn, p: Proposal): Next
    requires !p.Escalate? && !p.Complete?
  {
    match Intention(req, st, p)
    case Invalid(code) => Over(Failure(code))
    case Intends(act, pending) => Tried(req, st, turn, act, pending)
  }

  function Respond(req: Request, st: State, turn: Turn): Next {
    match turn.proposal
    case Fails(error) => Over(Failure(error.code))
    case Says(p) =>
      if p.Escalate? then Handoff(st, turn.handover)
      else if p.Complete? then Completed(req, st, turn)
      else ActOn(req, st, turn, p)
  }

  function Seen(st: State, fingerprint: string): State {
    var idle := st.recordings != [] && Observational(st.recordings[|st.recordings| - 1].action);
    st.(previous := Some(fingerprint),
        repeatedState := if st.previous == Some(fingerprint) && !idle then st.repeatedState + 1 else 0)
  }

  function TakeTurn(req: Request, st: State, turn: Turn): Next {
    if turn.expired then Over(Failure("discovery_timeout"))
    else if turn.seen.Fails? then Over(Failure(turn.seen.failure.code))
    else
      var st := Seen(st, turn.seen.said);
      if st.repeatedState >= req.maxRepeatedState then Handoff(st, turn.handover) else Respond(req, st, turn)
  }

  function Explore(req: Request, st: State, turns: seq<Turn>): Result
    decreases |turns|
  {
    if turns == [] then Failure("max_steps_exceeded") else
    match TakeTurn(req, st, turns[0])
    case Over(result) => result
    case More(st') => Explore(req, st', turns[1..])
  }

  /** What the loop keeps between iterations: its local variables in the program. */
  class Explorer {
    const req: Request
    var recordings: seq<Recording>
    var observed: Option<Observed>
    var outputs: set<string>
    var previous: Option<string>
    var repeatedState: nat
    var lastAction: Option<(Action, Option<string>)>
    var repeatedAction: nat

    function Now(): State
      reads this
    {
      State(recordings, observed, outputs, previous, repeatedState, lastAction, repeatedAction)
    }

    constructor (req: Request)
      ensures this.req == req && Now() == START
    {
      this.req := req;
      recordings, observed, outputs := [], None, {};
      previous, repeatedState, lastAction, repeatedAction := None, 0, None, 0;
    }

    method Pause(how: Handover) returns (result: Option<Result>)
      modifies this
      ensures Handoff(old(Now()), how) == (if result.Some? then Over(result.value) else More(Now()))
    {
      if how.Ended? { return Some(Failure(how.code)); }
      outputs, previous, repeatedState, lastAction, repeatedAction := {}, None, 0, None, 0;
      result := None;
    }

    method Try(turn: Turn, act: Act, pending: Option<Observed>) returns (result: Option<Result>)
      modifies this
      ensures Tried(req, old(Now()), turn, act, pending) == (if result.Some? then Over(result.value) else More(Now()))
    {
      Count(act);
      if repeatedAction >= req.maxRepeatedAction || act.confidence < req.minimumConfidence {
        result := Pause(turn.handover);
      } else {
        result := Execute(turn, act, pending);
      }
    }

    method Count(act: Act)
      modifies this
      ensures Now() == Counted(old(Now()), act)
    {
      repeatedAction := if lastAction == Some(ActionKey(act)) then repeatedAction + 1 else 0;
      lastAction := Some(ActionKey(act));
    }

    method Execute(turn: Turn, act: Act, pending: Option<Observed>) returns (result: Option<Result>)
      modifies this
      ensures Executed(req, old(Now()), turn, act, pending)
              == (if result.Some? then Over(result.value) else More(Now()))
    {
      var (acted, bound) := Perform(req, act, turn.acting, outputs);
      outputs := bound;
      result := Settle(turn, acted, pending);
    }

    method Settle(turn: Turn, acted: Acted, pending: Option<Observed>) returns (result: Option<Result>)
      modifies this
      ensures AfterAct(req, old(Now()), turn, acted, pending)
              == (if result.Some? then Over(result.value) else More(Now()))
    {
      match acted
      case Refused(code) => result := Some(Failure(code));
      case Blocked(_) => result := Pause(turn.handover);
      case Raised(error) =>
        result := None;
        if error.recoverable && error.effectAbsent {
          previous, repeatedState := None, 0;
        } else if error.interventionRecommended {
          result := Pause(turn.handover);
        } else {
          result := Some(Failure(error.code));
        }
      case Recorded(recording) =>
        recordings := recordings + [recording];
        result := None;
        if pending.Some? {
          observed := pending;
          if req.scenario.Some? && !req.scenario.value.kind.RecoveryBranch? {
            result := Some(Conclude(req, Now(), turn.completing));
          }
        }
    }

    method Take(turn: Turn) returns (result: Option<Result>)
      modifies this
      ensures TakeTurn(req, old(Now()), turn) == (if result.Some? then Over(result.value) else More(Now()))
    {
      if turn.expired { return Some(Failure("discovery_timeout")); }
      if turn.seen.Fails? { return Some(Failure(turn.seen.failure.code)); }
      See(turn.seen.said);
      if repeatedState >= req.maxRepeatedState {
        result := Pause(turn.handover);
      } else {
        result := Answer(turn);
      }
    }

    method See(fingerprint: string)
      modifies this
      ensures Now() == Seen(old(Now()), fingerprint)
    {
      var idle := recordings != [] && Observational(recordings[|recordings| - 1].action);
      if previous == Some(fingerprint) && !idle {
        repeatedState := repeatedState + 1;
      } else {
        repeatedState := 0;
      }
      previous := Some(fingerprint);
    }

    method Answer(turn: Turn) returns (result: Option<Result>)
      modifies this
      ensures Respond(req, old(Now()), turn) == (if result.Some? then Over(result.value) else More(Now()))
    {
      if turn.proposal.Fails? { return Some(Failure(turn.proposal.failure.code)); }
      var p := turn.proposal.said;
      if p.Escalate? {
        result := Pause(turn.handover);
      } else if p.Complete? {
        var completed := Completed(req, Now(), turn);
        result := if completed.Over? then Some(completed.result) else None;
      } else {
        var intended := Intention(req, Now(), p);
        if intended.Invalid? { return Some(Failure(intended.code)); }
        result := Try(turn, intended.act, intended.pending);
      }
    }

    /** At most as many turns as the request allows steps. */
    method Run(turns: seq<Turn>) returns (result: Result)
      modifies this
      ensures result == Explore(req, old(Now()), turns)
    {
      var n := 0;
      while n < |turns|
        invariant n <= |turns|
        invariant Explore(req, old(Now()), turns) == Explore(req, Now(), turns[n..])
      {
        assert turns[n..][0] == turns[n] && turns[n..][1..] == turns[n + 1..];
        var ended := Take(turns[n]);
        if ended.Some? { return ended.value; }
        n := n + 1;
      }
      result := Failure("max_steps_exceeded");
    }
  }

  // ---------------------------------------------------------------- what every exploration keeps

  predicate MarkerAt(recordings: seq<Recording>, o: Observed) {
    o.after < |recordings| && recordings[o.after].action == Assert(o.condition)
  }

  ghost predicate Sound(req: Request, st: State) {
    && (forall r <- st.recordings :: Rank(r.risk) <= Rank(Reversible))
    && (st.observed.Some? ==>
          && req.scenario.Some? && req.scenario.value.kind.RecoveryBranch?
          && MarkerAt(st.recordings, st.observed.value))
  }

  /** What the merge will ask of a scenario's evidence. */
  ghost predicate Evident(req: Request, artifact: Artifact, branch: Option<Observed>) {
    && (forall step <- artifact.steps :: Rank(step.body.risk) <= Rank(Reversible))
    && (req.scenario.None? ==> branch.None?)
    && (req.scenario.Some? ==>
          && branch.Some?
          && var after, condition, kind := branch.value.after, branch.value.condition, req.scenario.value.kind;
          && after < |artifact.steps| && artifact.steps[after].body.action == Assert(condition)
          && (!kind.RecoveryBranch? ==> |artifact.steps| == after + 1)
          && (kind.RecoveryBranch? ==>
                after < |req.scenario.value.primary.steps| && Restores(artifact.steps[after + 1..], condition)))
  }

  ghost predicate SoundNext(req: Request, next: Next) {
    match next
    case More(st) => Sound(req, st)
    case Over(Failure(_)) => true
    case Over(Success(artifact, branch)) => Evident(req, artifact, branch)
  }

  /** Everything an action claims is confirmed by the session: its own condition, its expected one, its output. */
  predicate Confirmed(p: Act, x: Acting) {
    && (OwnCondition(p.action).Some? ==> x.held == Replay.Says(true))
    && (p.expected.Some? ==> x.expectedHeld == Replay.Says(true))
    && (p.action.Extract? ==> x.fits)
    && x.after.Says?
  }

  /** Why an action may be recorded: it was found, permitted by every voice of policy, took effect and was confirmed. */
  predicate Justified(req: Request, p: Act, x: Acting) {
    && x.grounding.Ground? && (p.action.Extract? ==> x.grounding.resolved && !x.valueBound)
    && (p.action.Extract? ==> p.action.extracted in req.contract.declared)
    && Policy.Permitted(req.policy,
                        Policy.Context(Policy.Automation, Policy.DiscoveryMode, "automation", x.originAllowed,
                                       x.routeAllowed, ActionKind(p.action), x.description, p.declared,
                                       x.grounding.registered, x.fieldClass))
    && x.effect.Did? && Confirmed(p, x)
  }

  /** An action is recorded if and only if that holds and its conditions read only outputs already captured. */
  lemma RecordsExactly(req: Request, p: Act, x: Acting, outputs: set<string>)
    ensures Perform(req, p, x, outputs).0.Recorded? <==>
              && Justified(req, p, x)
              && (OwnCondition(p.action).Some? ==> ConditionOutputs(OwnCondition(p.action).value) <= outputs)
  {
    if x.grounding.Ground? {
      Policy.AllowsExactly(req.policy, ContextOf(p, x, x.grounding.registered));
    }
  }

  lemma PerformedIsLowRisk(req: Request, p: Act, x: Acting, outputs: set<string>)
    ensures
      var acted := Perform(req, p, x, outputs).0;
      acted.Recorded? ==>
        && acted.recording.action == p.action
        && Rank(p.declared) <= Rank(acted.recording.risk) <= Rank(Reversible)
        && Rank(acted.recording.risk) <= Rank(req.policy.maximumRisk)
  {
    if Perform(req, p, x, outputs).0.Recorded? {
      Policy.AllowedRisk(req.policy, ContextOf(p, x, x.grounding.registered));
    }
  }

  lemma RestoredCompiles(recordings: seq<Recording>, after: nat, blocked: Condition)
    requires RestoredAfter(recordings, after, blocked)
    ensures after < |recordings| && Restores(CompileSteps(recordings)[after + 1..], blocked)
  {
    var k, p :| after < k < |recordings| && 0 <= p < |recordings[k].verified|
      && ProvesDistinctSurface(recordings[k].verified[p], blocked);
    var corrective := CompileSteps(recordings)[after + 1..];
    assert corrective[k - after - 1].body.postconditions[p] == recordings[k].verified[p];
  }

  /** The recordings a completion may be compiled from. */
  ghost predicate Complying(req: Request, recordings: seq<Recording>, observed: Option<Observed>) {
    && (forall r <- recordings :: Rank(r.risk) <= Rank(Reversible))
    && (req.scenario.None? <==> observed.None?)
    && (req.scenario.Some? ==>
          && MarkerAt(recordings, observed.value)
          && (!req.scenario.value.kind.RecoveryBranch? ==> |recordings| == observed.value.after + 1)
          && (req.scenario.value.kind.RecoveryBranch? ==>
                && observed.value.after < |req.scenario.value.primary.steps|
                && RestoredAfter(recordings, observed.value.after, observed.value.condition)))
  }

  lemma CompiledIsEvident(req: Request, recordings: seq<Recording>, observed: Option<Observed>, artifact: Artifact)
    requires Complying(req, recordings, observed) && artifact.steps == CompileSteps(recordings)
    ensures Evident(req, artifact, observed)
  {
    forall step <- artifact.steps ensures Rank(step.body.risk) <= Rank(Reversible) {
      var k :| 0 <= k < |recordings| && artifact.steps[k] == step;
      assert recordings[k] in recordings;
    }
    if req.scenario.Some? && req.scenario.value.kind.RecoveryBranch? {
      RestoredCompiles(recordings, observed.value.after, observed.value.condition);
    }
  }

  lemma ConcludeIsEvident(req: Request, st: State, x: Completing)
    requires Complying(req, st.recordings, st.observed)
    ensures SoundNext(req, Over(Conclude(req, st, x)))
  {
    var result := Conclude(req, st, x);
    if result.Success? {
      CompiledIsEvident(req, st.recordings, st.observed, result.artifact);
    }
  }

  lemma ExecutedKeeps(req: Request, st: State, turn: Turn, act: Act, pending: Option<Observed>)
    requires Sound(req, st)
    requires pending.Some? ==>
               && req.scenario.Some? && act.action == Assert(pending.value.condition)
                 && pending.value.after == |st.recordings|
    ensures SoundNext(req, Executed(req, st, turn, act, pending))
  {
    PerformedIsLowRisk(req, act, turn.acting, st.outputs);
    var (acted, outputs) := Perform(req, act, turn.acting, st.outputs);
    SettledKeeps(req, st.(outputs := outputs), turn, acted, pending);
  }

  lemma SettledKeeps(req: Request, st: State, turn: Turn, acted: Acted, pending: Option<Observed>)
    requires Sound(req, st)
    requires acted.Recorded? ==> Rank(acted.recording.risk) <= Rank(Reversible)
    requires pending.Some? ==> req.scenario.Some? && pending.value.after == |st.recordings|
    requires pending.Some? && acted.Recorded? ==> acted.recording.action == Assert(pending.value.condition)
    ensures SoundNext(req, AfterAct(req, st, turn, acted, pending))
  {
    if acted.Recorded? {
      var recordings := st.recordings + [acted.recording];
      forall r <- recordings ensures Rank(r.risk) <= Rank(Reversible) {
        assert r in st.recordings || r == acted.recording;
      }
      if pending.Some? {
        assert MarkerAt(recordings, pending.value);
        if !req.scenario.value.kind.RecoveryBranch? {
          ConcludeIsEvident(req, st.(recordings := recordings, observed := pending), turn.completing);
        }
      }
    }
  }

  lemma ActKeeps(req: Request, st: State, turn: Turn, p: Proposal)
    requires Sound(req, st) && !p.Escalate? && !p.Complete?
    ensures SoundNext(req, ActOn(req, st, turn, p))
  {
    var intended := Intention(req, st, p);
    if intended.Intends? {
      ExecutedKeeps(req, Counted(st, intended.act), turn, intended.act, intended.pending);
    }
  }

  lemma TurnKeeps(req: Request, st: State, turn: Turn)
    requires Sound(req, st)
    ensures SoundNext(req, TakeTurn(req, st, turn))
  {
    if !turn.expired && turn.seen.Says? {
      var seen := Seen(st, turn.seen.said);
      if turn.proposal.Says? {
        if turn.proposal.said.Complete? {
          CompletedKeeps(req, seen, turn);
        } else if !turn.proposal.said.Escalate? {
          ActKeeps(req, seen, turn, turn.proposal.said);
        }
      }
    }
  }

  lemma CompletedKeeps(req: Request, st: State, turn: Turn)
    requires Sound(req, st)
    ensures SoundNext(req, Completed(req, st, turn))
  {
    if req.scenario.None? || (
      && st.observed.Some?
      && RestoredAfter(st.recordings, st.observed.value.after, st.observed.value.condition)
      && RejoinReady(req.scenario.value.primary, st.observed.value.after, turn.rejoin))
    {
      ConcludeIsEvident(req, st, turn.completing);
    }
  }

  /** For every sequence of proposals, rejections and handoffs, a success carries the evidence a merge needs. */
  lemma {:induction false} SuccessIsEvident(req: Request, st: State, turns: seq<Turn>)
    requires Sound(req, st)
    ensures
      var result := Explore(req, st, turns);
      result.Success? ==> Evident(req, result.artifact, result.branch)
    decreases |turns|
  {
    if turns != [] {
      TurnKeeps(req, st, turns[0]);
      match TakeTurn(req, st, turns[0]) {
        case Over(_) =>
        case More(st') => SuccessIsEvident(req, st', turns[1..]);
      }
    }
  }

  /**
  The producer's gate and the consumer's gate agree: the merge never rejects a successful scenario
  discovery for its marker, for going on after a terminal marker, for having nothing to rejoin, for the
  risk of its corrective steps or for a missing restored state, however the discovery went.
  */
  lemma ProducerMeetsConsumer(req: Request, turns: seq<Turn>, draft: Draft, s: Scenario)
    requires req.scenario.Some? && Explore(req, START, turns).Success?
    requires |draft.steps| == |req.scenario.value.primary.steps| && s.kind == req.scenario.value.kind
    requires s.result == Verified(Explore(req, START, turns).artifact, Explore(req, START, turns).branch)
    ensures
      var admitted := Admit(req.scenario.value.primary, draft, s);
      admitted.Err? ==> admitted.error in {ContractMismatch, PrefixMismatch, NotDistinctive, NotDistinctBranch}
  {
    SuccessIsEvident(req, START, turns);
    var artifact, branch := s.result.artifact, s.result.branch.value;
    var corrective := artifact.steps[branch.after + 1..];
    forall k | 0 <= k < |corrective| ensures Rank(corrective[k].body.risk) < Rank(Sensitive) {
      assert corrective[k] in artifact.steps;
    }
  }

  // ---------------------------------------------------------------- nothing is compiled that was not earned

  /** What an action claims: that its own condition holds, the expected one, and that its output fits. */
  predicate Claims(p: Act, c: Condition) {
    || OwnCondition(p.action) == Some(c) || p.expected == Some(c)
    || (p.action.Extract? && c == OutputValid(p.action.extracted))
  }

  /** The recording is of this action, on the control found for it, with just the claims that were confirmed. */
  ghost predicate Records(req: Request, x: Acting, act: Act, r: Recording) {
    && act.action == r.action && Justified(req, act, x)
    && r.target == x.grounding.stable && (forall c :: c in r.verified <==> Claims(act, c))
    && Rank(act.declared) <= Rank(r.risk) <= Rank(Reversible) && Rank(r.risk) <= Rank(req.policy.maximumRisk)
  }

  /** In this turn the recorded action was justified, and proposed with enough confidence. */
  ghost predicate Warrants(req: Request, turn: Turn, r: Recording) {
    exists act: Act :: Records(req, turn.acting, act, r) && req.minimumConfidence <= act.confidence
  }

  ghost predicate Warranted(req: Request, turns: seq<Turn>, r: Recording) {
    exists turn <- turns :: Warrants(req, turn, r)
  }

  ghost predicate AllWarranted(req: Request, turns: seq<Turn>, recordings: seq<Recording>) {
    forall r <- recordings :: Warranted(req, turns, r)
  }

  /** The artifact is compiled from recordings each of which some turn warrants. */
  ghost predicate Earned(req: Request, turns: seq<Turn>, artifact: Artifact) {
    exists recordings :: artifact.steps == CompileSteps(recordings) && AllWarranted(req, turns, recordings)
  }

  ghost predicate EarnedNext(req: Request, turns: seq<Turn>, next: Next) {
    match next
    case More(st) => AllWarranted(req, turns, st.recordings)
    case Over(Failure(_)) => true
    case Over(Success(artifact, _)) => Earned(req, turns, artifact)
  }

  lemma ConcludeEarns(req: Request, turns: seq<Turn>, st: State, x: Completing)
    requires AllWarranted(req, turns, st.recordings)
    ensures EarnedNext(req, turns, Over(Conclude(req, st, x)))
  {
    var result := Conclude(req, st, x);
    if result.Success? {
      assert result.artifact.steps == CompileSteps(st.recordings);
    }
  }

  lemma PerformWarrants(req: Request, act: Act, turn: Turn, outputs: set<string>)
    requires req.minimumConfidence <= act.confidence
    ensures
      var acted := Perform(req, act, turn.acting, outputs).0;
      acted.Recorded? ==> Warrants(req, turn, acted.recording)
  {
    RecordsExactly(req, act, turn.acting, outputs);
    PerformedIsLowRisk(req, act, turn.acting, outputs);
    var acted := Perform(req, act, turn.acting, outputs).0;
    if acted.Recorded? {
      RecordedAs(req, act, turn.acting, outputs);
      assert Records(req, turn.acting, act, acted.recording);
    }
  }

  lemma RecordedAs(req: Request, act: Act, x: Acting, outputs: set<string>)
    requires Perform(req, act, x, outputs).0.Recorded?
    ensures
      var r := Perform(req, act, x, outputs).0.recording;
      && x.grounding.Ground? && r.target == x.grounding.stable
      && forall c :: c in r.verified <==> Claims(act, c)
  {
    var r := Perform(req, act, x, outputs).0.recording;
    assert r.verified == VerifiedBy(act);
  }

  lemma OneMore(req: Request, done: seq<Turn>, turn: Turn, recordings: seq<Recording>, r: Recording)
    requires AllWarranted(req, done, recordings) && Warrants(req, turn, r)
    ensures AllWarranted(req, done + [turn], recordings + [r])
  {
    forall q <- recordings + [r] ensures Warranted(req, done + [turn], q) {
      if q in recordings {
        var t :| t in done && Warrants(req, t, q);
        assert t in done + [turn];
      } else {
        assert turn in done + [turn];
      }
    }
  }

  lemma StillWarranted(req: Request, done: seq<Turn>, turn: Turn, recordings: seq<Recording>)
    requires AllWarranted(req, done, recordings)
    ensures AllWarranted(req, done + [turn], recordings)
  {
    forall r <- recordings ensures Warranted(req, done + [turn], r) {
      var t :| t in done && Warrants(req, t, r);
      assert t in done + [turn];
    }
  }

  lemma ExecutedEarns(req: Request, done: seq<Turn>, st: State, turn: Turn, act: Act, pending: Option<Observed>)
    requires AllWarranted(req, done, st.recordings) && req.minimumConfidence <= act.confidence
    ensures EarnedNext(req, done + [turn], Executed(req, st, turn, act, pending))
  {
    var (acted, outputs) := Perform(req, act, turn.acting, st.outputs);
    PerformWarrants(req, act, turn, st.outputs);
    StillWarranted(req, done, turn, st.recordings);
    if acted.Recorded? {
      OneMore(req, done, turn, st.recordings, acted.recording);
      ConcludeEarns(req, done + [turn],
                    st.(outputs := outputs, recordings := st.recordings + [acted.recording],
                        observed := if pending.Some? then pending else st.observed),
                    turn.completing);
    }
  }

  lemma RespondEarns(req: Request, done: seq<Turn>, st: State, turn: Turn)
    requires AllWarranted(req, done, st.recordings)
    ensures EarnedNext(req, done + [turn], Respond(req, st, turn))
  {
    StillWarranted(req, done, turn, st.recordings);
    if turn.proposal.Says? {
      var p := turn.proposal.said;
      if p.Complete? {
        ConcludeEarns(req, done + [turn], st, turn.completing);
      } else if !p.Escalate? && Intention(req, st, p).Intends? {
        var intended := Intention(req, st, p);
        if req.minimumConfidence <= intended.act.confidence {
          ExecutedEarns(req, done, Counted(st, intended.act), turn, intended.act, intended.pending);
        }
      }
    }
  }

  lemma TurnEarns(req: Request, done: seq<Turn>, st: State, turn: Turn)
    requires AllWarranted(req, done, st.recordings)
    ensures EarnedNext(req, done + [turn], TakeTurn(req, st, turn))
  {
    StillWarranted(req, done, turn, st.recordings);
    if !turn.expired && turn.seen.Says? {
      RespondEarns(req, done, Seen(st, turn.seen.said), turn);
    }
  }

  lemma {:induction false} ExplorationEarns(req: Request, done: seq<Turn>, st: State, turns: seq<Turn>)
    requires AllWarranted(req, done, st.recordings)
    ensures Explore(req, st, turns).Success? ==> Earned(req, done + turns, Explore(req, st, turns).artifact)
    decreases |turns|
  {
    if turns != [] {
      TurnEarns(req, done, st, turns[0]);
      assert done + turns == done + [turns[0]] + turns[1..];
      match TakeTurn(req, st, turns[0]) {
        case Over(result) =>
          if result.Success? {
            EarnedLater(req, done + [turns[0]], turns[1..], result.artifact);
          }
        case More(st') => ExplorationEarns(req, done + [turns[0]], st', turns[1..]);
      }
    }
  }

  lemma EarnedLater(req: Request, done: seq<Turn>, more: seq<Turn>, artifact: Artifact)
    requires Earned(req, done, artifact)
    ensures Earned(req, done + more, artifact)
  {
    var recordings :| artifact.steps == CompileSteps(recordings) && AllWarranted(req, done, recordings);
    forall r <- recordings ensures Warranted(req, done + more, r) {
      var turn :| turn in done && Warrants(req, turn, r);
      assert turn in done + more;
    }
  }

  ghost predicate StepEarned(req: Request, turns: seq<Turn>, k: nat, step: Step) {
    exists r :: Warranted(req, turns, r) && step == CompileStep(k + 1, r)
  }

  lemma EarnedStep(req: Request, turns: seq<Turn>, artifact: Artifact, k: nat)
    requires Earned(req, turns, artifact) && k < |artifact.steps|
    ensures StepEarned(req, turns, k, artifact.steps[k])
  {
    var recordings :| artifact.steps == CompileSteps(recordings) && AllWarranted(req, turns, recordings);
    assert recordings[k] in recordings && artifact.steps[k] == CompileStep(k + 1, recordings[k]);
  }

  lemma ExplorationEarnsSteps(req: Request, st: State, turns: seq<Turn>, k: nat)
    requires st.recordings == [] && Explore(req, st, turns).Success? && k < |Explore(req, st, turns).artifact.steps|
    ensures StepEarned(req, turns, k, Explore(req, st, turns).artifact.steps[k])
  {
    var artifact := Explore(req, st, turns).artifact;
    assert Earned(req, turns, artifact) by {
      ExplorationEarns(req, [], st, turns);
      assert [] + turns == turns;
    }
    EarnedStep(req, turns, artifact, k);
  }

  /**
  Every step of an artifact that a discovery yields, however it went, is compiled from an action that in some turn
  was permitted by every voice of policy, had its effect, and had everything it claimed confirmed by the session.
  */
  lemma EveryStepIsWarranted(req: Request, turns: seq<Turn>, k: nat)
    requires Explore(req, START, turns).Success? && k < |Explore(req, START, turns).artifact.steps|
    ensures StepEarned(req, turns, k, Explore(req, START, turns).artifact.steps[k])
  {
    ExplorationEarnsSteps(req, START, turns, k);
  }

  /**
  The step does what was seen: in the turn that warrants it an action was permitted, took effect and was confirmed,
  and the step is that action on the control found for it, with the confirmed claims as its postconditions.
  */
  ghost predicate DoesWhatWasSeen(req: Request, turn: Turn, act: Act, step: Step) {
    && Justified(req, act, turn.acting) && req.minimumConfidence <= act.confidence
    && step.body.action == act.action && step.body.target == turn.acting.grounding.stable
    && (forall c :: c in step.body.postconditions <==> Claims(act, c))
    && Rank(act.declared) <= Rank(step.body.risk) <= Rank(Reversible)
    && step.body.preconditions == [] && step.outcomeRefs == [] && step.failureRefs == [] && step.recoveryRefs == []
  }

  lemma EveryStepDoesWhatWasSeen(req: Request, turns: seq<Turn>, k: nat)
    requires Explore(req, START, turns).Success? && k < |Explore(req, START, turns).artifact.steps|
    ensures exists turn <- turns, act :: DoesWhatWasSeen(req, turn, act, Explore(req, START, turns).artifact.steps[k])
  {
    EveryStepIsWarranted(req, turns, k);
    var step := Explore(req, START, turns).artifact.steps[k];
    var r :| Warranted(req, turns, r) && step == CompileStep(k + 1, r);
    var turn :| turn in turns && Warrants(req, turn, r);
    var act: Act :| Records(req, turn.acting, act, r) && req.minimumConfidence <= act.confidence;
    CompiledClaims(k + 1, r, act);
    assert DoesWhatWasSeen(req, turn, act, step);
  }

  lemma CompiledClaims(index: nat, r: Recording, act: Act)
    requires act.action == r.action && forall c :: c in r.verified <==> Claims(act, c)
    ensures forall c :: c in CompileStep(index, r).body.postconditions <==> Claims(act, c)
  {
    if act.action.Extract? {
      assert Claims(act, OutputValid(act.action.extracted));
    }
    if r.verified == [] {
      assert forall c :: !Claims(act, c);
    }
  }

  // ---------------------------------------------------------------- what a success was verified against

  /** The condition is about the surface, and no later step has a postcondition that is. */
  ghost predicate LatestShown(steps: seq<Step>, shown: Condition) {
    exists k :: 0 <= k < |steps| && shown in steps[k].body.postconditions && SurfaceConditions(shown) != []
                && forall later :: k < later < |steps| ==>
                     forall c <- steps[later].body.postconditions :: SurfaceConditions(c) == []
  }

  ghost predicate NeverShown(steps: seq<Step>) {
    forall k :: 0 <= k < |steps| ==> forall c <- steps[k].body.postconditions :: SurfaceConditions(c) == []
  }

  /** The page is where the discovery ended and shows what was verified last; and every required output is there. */
  ghost predicate Checkpointed(req: Request, a: Artifact, x: Completing, shown: Condition) {
    && a.checkpoint == All([Route(x.finalRoute), shown] + OutputChecks(req.contract.required))
    && (LatestShown(a.steps, shown) || (NeverShown(a.steps) && x.fallback == Some(shown)))
  }

  /** The artifact starts where the discovery did, declares what the contract asks, and uses only what policy lists. */
  ghost predicate Contracted(req: Request, a: Artifact, x: Completing) {
    && Validated(a)
    && a.capability == req.contract.capability && a.family == req.family && a.entryPoint == req.entryPoint
    && a.variants == [req.tenant] && a.requiredOutputs == req.contract.required && a.hash == Some(x.hash)
    && a.inputs == x.redactedInputs && a.outputs == x.redactedOutputs
    && a.preconditions == [Route(x.startRoute)] && a.allowedRoutes == x.routes
    && a.recoveries == [] && a.outcomes == [] && a.failures == []
    && a.risk == a.maximumRisk && Rank(a.risk) <= Rank(req.policy.maximumRisk)
    && (forall step <- a.steps :: ActionKind(step.body.action) in req.policy.allowedActions * a.allowedActions)
    && (forall name <- a.requiredOutputs ::
          exists step <- a.steps :: step.body.action.Extract? && step.body.action.extracted == name)
  }

  /** The session found the completion true with fitting outputs, and nothing private is left in the artifact. */
  ghost predicate CompletedBy(req: Request, a: Artifact, x: Completing) {
    && x.verified == Replay.Says(true) && x.outputsFit && !x.private
    && Contracted(req, a, x) && exists shown :: Checkpointed(req, a, x, shown)
  }

  lemma {:induction false} LastSurfaceIsLast(conditions: seq<Condition>)
    ensures
      var found := LastSurface(conditions);
      if found.Some? then found.value in conditions && SurfaceConditions(found.value) != []
      else forall c <- conditions :: SurfaceConditions(c) == []
  {
    if conditions != [] {
      LastSurfaceIsLast(conditions[..|conditions| - 1]);
    }
  }

  lemma CompiledShows(index: nat, r: Recording)
    ensures
      var posts := CompileStep(index, r).body.postconditions;
      if LastSurface(r.verified).Some?
      then LastSurface(r.verified).value in posts && SurfaceConditions(LastSurface(r.verified).value) != []
      else forall c <- posts :: SurfaceConditions(c) == []
  {
    LastSurfaceIsLast(r.verified);
  }

  lemma ShownStill(steps: seq<Step>, last: Step, shown: Condition)
    requires LatestShown(steps, shown) && forall c <- last.body.postconditions :: SurfaceConditions(c) == []
    ensures LatestShown(steps + [last], shown)
  {
    var k :| 0 <= k < |steps| && shown in steps[k].body.postconditions
             && forall later :: k < later < |steps| ==>
                  forall c <- steps[later].body.postconditions :: SurfaceConditions(c) == [];
    assert (steps + [last])[k] == steps[k];
  }

  lemma ShownLast(steps: seq<Step>, last: Step, shown: Condition)
    requires shown in last.body.postconditions && SurfaceConditions(shown) != []
    ensures LatestShown(steps + [last], shown)
  {
    assert (steps + [last])[|steps|] == last;
  }

  /** The steps show `found` last, or nothing at all. */
  ghost predicate ShowsLast(steps: seq<Step>, found: Option<Condition>) {
    if found.Some? then LatestShown(steps, found.value) else NeverShown(steps)
  }

  lemma ShowsOneMore(steps: seq<Step>, found: Option<Condition>, r: Recording)
    requires ShowsLast(steps, found)
    ensures
      var own := LastSurface(r.verified);
      ShowsLast(steps + [CompileStep(|steps| + 1, r)], if own.Some? then own else found)
  {
    var last, own := CompileStep(|steps| + 1, r), LastSurface(r.verified);
    CompiledShows(|steps| + 1, r);
    if own.Some? {
      ShownLast(steps, last, own.value);
    } else if found.Some? {
      ShownStill(steps, last, found.value);
    }
  }

  lemma CompiledOneMore(recordings: seq<Recording>)
    requires recordings != []
    ensures
      var n := |recordings| - 1;
      CompileSteps(recordings) == CompileSteps(recordings[..n]) + [CompileStep(n + 1, recordings[n])]
  {
  }

  lemma {:induction false} LatestIsShown(recordings: seq<Recording>)
    ensures ShowsLast(CompileSteps(recordings), LatestSurface(recordings))
  {
    if recordings != [] {
      var n := |recordings| - 1;
      LatestIsShown(recordings[..n]);
      ShowsOneMore(CompileSteps(recordings[..n]), LatestSurface(recordings[..n]), recordings[n]);
      CompiledOneMore(recordings);
    }
  }

  lemma CompiledIsContracted(req: Request, recordings: seq<Recording>, x: Completing)
    requires Compile(req, recordings, x).Some?
    ensures
      var a := Compile(req, recordings, x).value;
      Contracted(req, a, x) && exists shown :: Checkpointed(req, a, x, shown)
  {
    var a := Compile(req, recordings, x).value;
    LatestIsShown(recordings);
    assert Checkpointed(req, a, x, Shown(recordings, x).value);
    CompiledKinds(recordings);
    forall name <- a.requiredOutputs
      ensures exists step <- a.steps :: step.body.action.Extract? && step.body.action.extracted == name
    {
      CompiledExtracts(recordings, name);
    }
  }

  lemma CompiledKinds(recordings: seq<Recording>)
    ensures forall step <- CompileSteps(recordings) :: ActionKind(step.body.action) in Kinds(recordings)
  {
    forall step <- CompileSteps(recordings)
      ensures ActionKind(step.body.action) in Kinds(recordings)
    {
      var k :| 0 <= k < |recordings| && CompileSteps(recordings)[k] == step;
      assert recordings[k] in recordings;
    }
  }

  lemma CompiledExtracts(recordings: seq<Recording>, name: string)
    requires exists r <- recordings :: r.action.Extract? && r.action.extracted == name
    ensures exists step <- CompileSteps(recordings) ::
              step.body.action.Extract? && step.body.action.extracted == name
  {
    var r :| r in recordings && r.action.Extract? && r.action.extracted == name;
    var k :| 0 <= k < |recordings| && recordings[k] == r;
    var steps := CompileSteps(recordings);
    assert steps[k].body.action == r.action && steps[k] in steps;
  }

  /** The step to rejoin was tried out: its control was found and its preconditions held. */
  predicate Rejoins(req: Request, branch: Option<Observed>, x: Rejoin) {
    req.scenario.Some? && req.scenario.value.kind.RecoveryBranch? ==>
      && branch.Some? && branch.value.after < |req.scenario.value.primary.steps| && x.preconditionsHold
      && (req.scenario.value.primary.steps[branch.value.after].body.target.Some? ==> x.targetResolves)
  }

  ghost predicate NextVerified(req: Request, turn: Turn, next: Next) {
    next.Over? && next.result.Success? ==>
      && CompletedBy(req, next.result.artifact, turn.completing)
      && Rejoins(req, next.result.branch, turn.rejoin)
  }

  lemma JudgementIsVerified(req: Request, compiled: Option<Artifact>, observed: Option<Observed>, x: Completing)
    requires compiled.Some? ==> Contracted(req, compiled.value, x) && exists shown ::
               Checkpointed(req, compiled.value, x, shown)
    ensures Judged(compiled, observed, x).Success? ==> CompletedBy(req, Judged(compiled, observed, x).artifact, x)
  {
  }

  lemma ConclusionIsVerified(req: Request, st: State, turn: Turn)
    requires Rejoins(req, st.observed, turn.rejoin)
    ensures NextVerified(req, turn, Over(Conclude(req, st, turn.completing)))
  {
    var compiled := Compile(req, st.recordings, turn.completing);
    if compiled.Some? {
      CompiledIsContracted(req, st.recordings, turn.completing);
    }
    JudgementIsVerified(req, compiled, st.observed, turn.completing);
  }

  lemma ActIsVerified(req: Request, st: State, turn: Turn, acted: Acted, pending: Option<Observed>)
    ensures NextVerified(req, turn, AfterAct(req, st, turn, acted, pending))
  {
    if acted.Recorded? && req.scenario.Some? && !req.scenario.value.kind.RecoveryBranch? {
      ConclusionIsVerified(req, st.(recordings := st.recordings + [acted.recording],
                                    observed := if pending.Some? then pending else st.observed), turn);
    }
  }

  lemma ExecutionIsVerified(req: Request, st: State, turn: Turn, act: Act, pending: Option<Observed>)
    ensures NextVerified(req, turn, Executed(req, st, turn, act, pending))
  {
    var (acted, outputs) := Perform(req, act, turn.acting, st.outputs);
    ActIsVerified(req, st.(outputs := outputs), turn, acted, pending);
  }

  lemma ProposalIsVerified(req: Request, st: State, turn: Turn, p: Proposal)
    requires !p.Escalate? && !p.Complete?
    ensures NextVerified(req, turn, ActOn(req, st, turn, p))
  {
    var intended := Intention(req, st, p);
    if intended.Intends? {
      ExecutionIsVerified(req, Counted(st, intended.act), turn, intended.act, intended.pending);
    }
  }

  lemma ResponseIsVerified(req: Request, st: State, turn: Turn)
    ensures NextVerified(req, turn, Respond(req, st, turn))
  {
    if turn.proposal.Says? {
      if turn.proposal.said.Complete? {
        if Rejoins(req, st.observed, turn.rejoin) {
          ConclusionIsVerified(req, st, turn);
        }
      } else if !turn.proposal.said.Escalate? {
        ProposalIsVerified(req, st, turn, turn.proposal.said);
      }
    }
  }

  lemma TurnIsVerified(req: Request, st: State, turn: Turn)
    ensures NextVerified(req, turn, TakeTurn(req, st, turn))
  {
    if !turn.expired && turn.seen.Says? {
      ResponseIsVerified(req, Seen(st, turn.seen.said), turn);
    }
  }

  /**
  However a discovery went, its success was verified in the turn that ended it: the session found the compiled
  checkpoint true with fitting outputs, nothing private was left, and the artifact starts where the discovery
  started, ends where it ended, on what was last seen, and declares just what the request asked for. A recovery's
  success found the primary's next step ready.
  */
  lemma {:induction false} SuccessIsVerified(req: Request, st: State, turns: seq<Turn>)
    ensures
      var result := Explore(req, st, turns);
      result.Success? ==>
        exists turn <- turns ::
          CompletedBy(req, result.artifact, turn.completing) && Rejoins(req, result.branch, turn.rejoin)
    decreases |turns|
  {
    if turns != [] {
      TurnIsVerified(req, st, turns[0]);
      match TakeTurn(req, st, turns[0]) {
        case Over(_) => assert turns[0] in turns;
        case More(st') =>
          SuccessIsVerified(req, st', turns[1..]);
          var result := Explore(req, st, turns);
          if result.Success? {
            var turn :| turn in turns[1..] && CompletedBy(req, result.artifact, turn.completing)
                        && Rejoins(req, result.branch, turn.rejoin);
            assert turn in turns;
          }
      }
    }
  }

  // ---------------------------------------------------------------- repetition and handoffs

  /** Nothing is repeated beyond its limit without a human having been asked. */
  predicate Patient(req: Request, st: State) {
    && (req.maxRepeatedState > 0 ==> st.repeatedState < req.maxRepeatedState)
    && (req.maxRepeatedAction > 0 ==> st.repeatedAction < req.maxRepeatedAction)
  }

  lemma TurnIsPatient(req: Request, st: State, turn: Turn)
    requires Patient(req, st)
    ensures TakeTurn(req, st, turn).More? ==> Patient(req, TakeTurn(req, st, turn).state)
  {
  }

  /** After a handoff every output has to be read again: none that was captured before it is used. */
  lemma HandoffForgets(req: Request, st: State, turn: Turn)
    requires !turn.expired && turn.seen.Says?
    requires || (turn.proposal.Says? && turn.proposal.said.Escalate?)
             || (&& st.previous == Some(turn.seen.said) && st.repeatedState + 1 >= req.maxRepeatedState
                 && (st.recordings == [] || !Observational(st.recordings[|st.recordings| - 1].action)))
    ensures
      var next := TakeTurn(req, st, turn);
      if turn.handover.Ended? then next == Over(Failure(turn.handover.code))
      else next == More(State(st.recordings, st.observed, {}, None, 0, None, 0))
  {
  }

  /** A recorded action that is repeated is expected to show again every identity the primary's step checks. */
  lemma GuardsAreKept(req: Request, st: State, id: Id, also: Option<Condition>, intent: string, guard: Condition)
    requires Intention(req, st, Again(id, also, intent)).Intends?
    ensures
      && req.scenario.Some?
      && exists step <- req.scenario.value.primary.steps ::
           && step.id == id
           && var act := Intention(req, st, Again(id, also, intent)).act;
           && act.action == step.body.action && act.target == step.body.target && act.declared == step.body.risk
           && (guard in step.body.postconditions && ContainsIdentity(guard) ==>
                 act.expected.Some?
                 && (act.expected.value == guard || (act.expected.value.All? && guard in act.expected.value.every)))
  {
    var primary := req.scenario.value.primary;
    FoundStep(primary.steps, id);
    var step := FindStep(primary.steps, id).value;
    GuardIsListed(step.body.postconditions, guard);
    assert step in primary.steps && step.id == id;
  }

  lemma {:induction false} FoundStep(steps: seq<Step>, id: Id)
    ensures FindStep(steps, id).Some? ==> FindStep(steps, id).value in steps && FindStep(steps, id).value.id == id
  {
    if steps != [] && steps[0].id != id {
      FoundStep(steps[1..], id);
    }
  }

  lemma {:induction false} GuardIsListed(conditions: seq<Condition>, guard: Condition)
    ensures guard in conditions && ContainsIdentity(guard) ==> guard in IdentityGuards(conditions)
  {
    if conditions != [] {
      GuardIsListed(conditions[1..], guard);
    }
  }

  // ---------------------------------------------------------------- the declared risk

  /** The risk a compiled artifact declares is the highest any of its actions was judged to have. */
  lemma {:induction false} HighestIsExact(recordings: seq<Recording>)
    requires recordings != []
    ensures forall r <- recordings :: Rank(r.risk) <= Rank(Highest(recordings))
    ensures exists r <- recordings :: r.risk == Highest(recordings)
  {
    var n := |recordings| - 1;
    if n > 0 {
      HighestIsExact(recordings[..n]);
      var r :| r in recordings[..n] && r.risk == Highest(recordings[..n]);
      assert r in recordings && recordings[n] in recordings;
      forall q <- recordings ensures Rank(q.risk) <= Rank(Highest(recordings)) {
        assert q in recordings[..n] || q == recordings[n];
      }
    } else {
      assert recordings[0] in recordings;
    }
  }
}
