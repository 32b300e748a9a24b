/**
The publication gate: a service that collects a primary discovery and its scenarios, validates them by
replay tenant by tenant, and publishes. `log` is the history of every replay the service asked for.
*/
module Suite {
  import opened Prelude
  import opened Capability
  import opened Merge

  type Inputs = string

  // ---------------------------------------------------------------- replay validations

  datatype Disposition = Succeeded | EndedIn(outcome: Id) | FailedWith(code: string) | Paused

  /** How a replay ended, and the recoveries it completed. */
  datatype Validation = Validation(result: Disposition, completed: seq<Id>)

  predicate Verifies(v: Validation, scenario: Option<Scenario>) {
    match scenario
    case None => v.result == Succeeded && v.completed == []
    case Some(s) =>
      match s.kind
      case RecoveryBranch => v.result == Succeeded && v.completed == [s.code]
      case OutcomeBranch => v.result == EndedIn(s.code) && v.completed == []
      case FailureBranch => v.result == FailedWith(s.code) && v.completed == []
  }

  datatype Replayed = Replayed(artifact: Artifact, tenant: string, inputs: Inputs, validation: Validation)

  // ---------------------------------------------------------------- suites

  datatype Case = Case(scenario: Scenario, goal: string, inputs: Inputs)

  datatype Status = Collecting | Validated | Published | Failed

  datatype Suite = Suite(
    id: Id,
    goal: string,
    family: string,
    tenant: string,
    entryPoint: string,
    primaryInputs: Inputs,
    primary: Discovered,
    cases: seq<Case>,
    artifact: Option<Artifact>,
    status: Status,
    publishedVersion: Option<string>,
    failures: seq<(string, string)>)

  datatype SuiteError =
    | NotFound
    | NotRegistered
    | Malformed
    | NotReady
    | DuplicateCode
    | MergeFailed(why: MergeError)
    | TooRiskyToPublish
    | ValidatorMissing
    | PrimaryReplayFailed
    | ScenarioReplayFailed
    | PublicationFailed

  predicate Word(text: string, shortest: nat, dash: bool) {
    && shortest <= |text| <= 64 && 0 < |text|
    && 'a' <= text[0] <= 'z'
    && forall k :: 1 <= k < |text| ==>
         var c := text[k];
         'a' <= c <= 'z' || '0' <= c <= '9' || c == '_' || (dash && c == '-')
  }

  predicate TenantName(tenant: string) {
    Word(tenant, 2, true)
  }

  predicate CaseFormed(c: Case) {
    && Word(c.scenario.code, 1, false)
    && !Blank(c.goal) && !Blank(c.scenario.description)
    && (c.scenario.result.Verified? ==> Capability.Validated(c.scenario.result.artifact))
  }

  function Scenarios(cases: seq<Case>): (scenarios: seq<Scenario>)
    ensures |scenarios| == |cases|
    ensures forall k :: 0 <= k < |cases| ==> scenarios[k] == cases[k].scenario
  {
    seq(|cases|, k requires 0 <= k < |cases| => cases[k].scenario)
  }

  function Codes(cases: seq<Case>): (codes: seq<Id>)
    ensures |codes| == |cases|
    ensures forall k :: 0 <= k < |cases| ==> codes[k] == cases[k].scenario.code
  {
    seq(|cases|, k requires 0 <= k < |cases| => cases[k].scenario.code)
  }

  /** What constructing a suite checks. */
  predicate Formed(s: Suite) {
    && !Blank(s.goal)
    && Word(s.family, 2, false)
    && TenantName(s.tenant)
    && Word(s.entryPoint, 2, false)
    && Unique(Codes(s.cases))
    && (s.cases != [] ==> s.primary.Verified?)
    && (!s.status.Failed? ==> s.primary.Verified?)
    && (s.status.Validated? || s.status.Published? ==> s.artifact.Some?)
    && (if s.status.Published? then s.publishedVersion == Some(s.artifact.value.version) else s.publishedVersion.None?)
    && (s.artifact.Some? ==> s.artifact.value.family == s.family)
    && (s.artifact.None? && s.primary.Verified? ==> s.primary.artifact.family == s.family)
  }

  predicate Open(s: Suite) {
    (s.status.Collecting? || s.status.Validated?) && s.primary.Verified?
  }

  function Candidate(s: Suite): Result<Artifact, MergeError>
    requires s.primary.Verified?
  {
    if s.artifact.Some? then Ok(s.artifact.value) else Merged(s.primary.artifact, Scenarios(s.cases))
  }

  // ---------------------------------------------------------------- what the gate keeps

  /** The same program: only the supported tenants, the version and the hash may differ. */
  predicate SameProgram(a: Artifact, b: Artifact) {
    a.(variants := b.variants, version := b.version, hash := b.hash) == b
  }

  predicate Passed(entry: Replayed, artifact: Artifact, tenant: string, scenario: Option<Scenario>) {
    SameProgram(entry.artifact, artifact) && entry.tenant == tenant && Verifies(entry.validation, scenario)
  }

  ghost predicate PassedOnce(log: seq<Replayed>, artifact: Artifact, tenant: string, inputs: Option<Inputs>,
                             scenario: Option<Scenario>) {
    exists k :: 0 <= k < |log| && Passed(log[k], artifact, tenant, scenario)
      && (inputs.Some? ==> log[k].inputs == inputs.value)
  }

  /** On this tenant the primary and every scenario ended as declared, in replays of this very program. */
  ghost predicate Proved(log: seq<Replayed>, artifact: Artifact, cases: seq<Case>, tenant: string,
                         primaryInputs: Option<Inputs>) {
    && PassedOnce(log, artifact, tenant, primaryInputs, None)
    && (forall k :: 0 <= k < |cases| ==>
          PassedOnce(log, artifact, tenant, Some(cases[k].inputs), Some(cases[k].scenario)))
  }

  ghost predicate Harmless(a: Artifact) {
    && (forall step <- a.steps :: Rank(step.body.risk) <= Rank(Reversible))
    && (forall r <- a.recoveries :: forall step <- r.steps :: Rank(step.body.risk) <= Rank(Reversible))
  }

  /** A published or validated artifact merges the primary with the current scenarios; each added tenant was proved. */
  ghost predicate Earned(log: seq<Replayed>, s: Suite, a: Artifact)
    requires s.primary.Verified?
  {
    && Capability.Validated(a)
    && Merged(s.primary.artifact, Scenarios(s.cases)).Ok?
    && SameProgram(a, Merged(s.primary.artifact, Scenarios(s.cases)).value)
    && (forall tenant <- a.variants :: tenant in s.primary.artifact.variants || Proved(log, a, s.cases, tenant, None))
  }

  ghost predicate Gated(log: seq<Replayed>, s: Suite) {
    && Formed(s)
    && (s.primary.Verified? ==> Capability.Validated(s.primary.artifact))
    && (s.status.Collecting? ==> s.artifact.None?)
    && (s.status.Validated? || s.status.Published? ==> Earned(log, s, s.artifact.value))
    && (s.status.Published? ==>
          Proved(log, s.artifact.value, s.cases, s.tenant, Some(s.primaryInputs)) && Harmless(s.artifact.value))
  }

  lemma PassedGrows(log: seq<Replayed>, more: seq<Replayed>, a: Artifact, b: Artifact, tenant: string,
                    inputs: Option<Inputs>, scenario: Option<Scenario>)
    requires log <= more && SameProgram(a, b) && PassedOnce(log, a, tenant, inputs, scenario)
    ensures PassedOnce(more, b, tenant, inputs, scenario)
  {
    var k :| 0 <= k < |log| && Passed(log[k], a, tenant, scenario) && (inputs.Some? ==> log[k].inputs == inputs.value);
    assert more[k] == log[k] && Passed(more[k], b, tenant, scenario);
  }

  lemma ProvedGrows(log: seq<Replayed>, more: seq<Replayed>, a: Artifact, b: Artifact, cases: seq<Case>,
                    tenant: string, inputs: Option<Inputs>)
    requires log <= more && SameProgram(a, b) && Proved(log, a, cases, tenant, inputs)
    ensures Proved(more, b, cases, tenant, inputs)
  {
    PassedGrows(log, more, a, b, tenant, inputs, None);
    forall k | 0 <= k < |cases| ensures PassedOnce(more, b, tenant, Some(cases[k].inputs), Some(cases[k].scenario)) {
      PassedGrows(log, more, a, b, tenant, Some(cases[k].inputs), Some(cases[k].scenario));
    }
  }

  lemma EarnedGrows(log: seq<Replayed>, more: seq<Replayed>, s: Suite, a: Artifact, b: Artifact)
    requires log <= more && s.primary.Verified? && Earned(log, s, a)
    requires SameProgram(a, b) && Capability.Validated(b)
    requires forall tenant <- b.variants :: tenant in a.variants || Proved(more, b, s.cases, tenant, None)
    ensures Earned(more, s, b)
  {
    forall tenant <- b.variants
      ensures tenant in s.primary.artifact.variants || Proved(more, b, s.cases, tenant, None)
    {
      if tenant in a.variants && tenant !in s.primary.artifact.variants {
        ProvedGrows(log, more, a, b, s.cases, tenant, None);
      }
    }
  }

  lemma GatedGrows(log: seq<Replayed>, more: seq<Replayed>, s: Suite)
    requires log <= more && Gated(log, s)
    ensures Gated(more, s)
  {
    if s.status.Validated? || s.status.Published? {
      EarnedGrows(log, more, s, s.artifact.value, s.artifact.value);
    }
    if s.status.Published? {
      ProvedGrows(log, more, s.artifact.value, s.artifact.value, s.cases, s.tenant, Some(s.primaryInputs));
    }
  }

  lemma MergedIsEarned(log: seq<Replayed>, s: Suite, a: Artifact)
    requires Gated(log, s) && Open(s) && Candidate(s) == Ok(a)
    ensures Earned(log, s, a) && a.family == s.family
  {
    if s.artifact.None? {
      MergeExtends(s.primary.artifact, Scenarios(s.cases));
    }
  }

  lemma RelabelledStaysValid(a: Artifact, b: Artifact)
    requires Capability.Validated(a) && SameProgram(a, b) && Unique(b.variants) && |b.variants| > 0
    ensures Capability.Validated(b)
  {
    forall i | 0 <= i < |b.steps| ensures StepAllowed(b, b.steps[i]) {
      StepStaysAllowed(a, b, a.steps[i]);
    }
    forall r, k | 0 <= r < |b.recoveries|
      && 0 <= k < |b.recoveries[r].steps| ensures StepAllowed(b, b.recoveries[r].steps[k]) {
      StepStaysAllowed(a, b, a.recoveries[r].steps[k]);
    }
  }

  lemma StepStaysAllowed(a: Artifact, b: Artifact, step: Step)
    requires SameProgram(a, b)
    ensures StepAllowed(a, step) ==> StepAllowed(b, step)
  {
  }

  /** A validated artifact whose declared risk is at most reversible holds no riskier step. */
  lemma LowRiskIsHarmless(a: Artifact)
    requires Capability.Validated(a) && Rank(a.risk) <= Rank(Reversible)
    ensures Harmless(a)
  {
    forall step <- a.steps ensures Rank(step.body.risk) <= Rank(Reversible) {
      assert StepAllowed(a, step);
    }
    forall r <- a.recoveries, step <- r.steps ensures Rank(step.body.risk) <= Rank(Reversible) {
      assert StepAllowed(a, step);
    }
  }

  // ---------------------------------------------------------------- operations

  /** A validator, like the registry, may answer differently each time: `n` counts the replays before. */
  type Validator = (nat, Artifact, string, Inputs) -> Validation

  datatype Ports = Ports(
    validator: Option<Validator>,
    registry: (nat, Artifact) -> Option<(string, string)>,
    targets: Option<(string, string, string) -> bool>)

  datatype Office = Office(repository: map<Id, Suite>, log: seq<Replayed>)

  type Reply = (Result<Suite, SuiteError>, Office)

  predicate Registered(ports: Ports, family: string, tenant: string, entryPoint: string) {
    ports.targets.Some? ==> ports.targets.value(family, tenant, entryPoint)
  }

  function Asked(v: Validator, log: seq<Replayed>, a: Artifact, tenant: string, inputs: Inputs): Replayed {
    Replayed(a, tenant, inputs, v(|log|, a, tenant, inputs))
  }

  function TryCases(v: Validator, log: seq<Replayed>, a: Artifact, tenant: string, cases: seq<Case>)
    : (bool, seq<Replayed>)
    decreases |cases|
  {
    if cases == [] then (true, log) else
    var entry := Asked(v, log, a, tenant, cases[0].inputs);
    if !Verifies(entry.validation, Some(cases[0].scenario)) then (false, log + [entry])
    else TryCases(v, log + [entry], a, tenant, cases[1..])
  }

  /** Replays the primary and then each scenario, stopping at the first that does not end as declared. */
  function TryAll(v: Validator, log: seq<Replayed>, a: Artifact, tenant: string, inputs: Inputs, cases: seq<Case>)
    : (Option<SuiteError>, seq<Replayed>)
  {
    var entry := Asked(v, log, a, tenant, inputs);
    if !Verifies(entry.validation, None) then (Some(PrimaryReplayFailed), log + [entry]) else
    var (passed, log') := TryCases(v, log + [entry], a, tenant, cases);
    (if passed then None else Some(ScenarioReplayFailed), log')
  }

  function Saved(office: Office, s: Suite): Office {
    office.(repository := office.repository[s.id := s])
  }

  /** The failure noted on a suite; the reason tells which replay did not end as declared, and in which operation. */
  function Noting(s: Suite, tenant: string, error: SuiteError, primary: string): Suite {
    s.(failures := s.failures + [(tenant, if error.PrimaryReplayFailed? then primary else "scenario_replay_failed")])
  }

  function WithTenant(a: Artifact, tenant: string): Artifact {
    if tenant in a.variants then a else a.(variants := a.variants + [tenant], hash := None)
  }

  function Releasing(s: Suite, a: Artifact, stamp: (string, string)): Suite {
    s.(artifact := Some(a.(version := stamp.0, hash := Some(stamp.1))), status := Published,
       publishedVersion := Some(stamp.0))
  }

  function Create(ports: Ports, office: Office, newId: Id, goal: string, family: string, tenant: string,
                  entryPoint: string,
                  inputs: Inputs, result: Discovered): Reply
  {
    var s := Suite(newId, goal, family, tenant, entryPoint, inputs, result, [], None,
                   if result.Verified? then Collecting else Failed, None, []);
    if !Registered(ports, family, tenant, entryPoint) then (Err(NotRegistered), office)
    else if !Formed(s) then (Err(Malformed), office)
    else (Ok(s), Saved(office, s))
  }

  function FromPublished(ports: Ports, office: Office, newId: Id, found: Option<Artifact>, goal: string, tenant: string,
                         inputs: Inputs): Reply
  {
    if found.None? then (Err(NotFound), office) else
    var a := found.value;
    if !Registered(ports, a.family, tenant, a.entryPoint) then (Err(NotRegistered), office)
    else if ports.validator.None? then (Err(PrimaryReplayFailed), office)
    else
      var entry := Asked(ports.validator.value, office.log, a, tenant, inputs);
      var asked := office.(log := office.log + [entry]);
      var s := Suite(newId, goal, a.family, tenant, a.entryPoint, inputs, Verified(a, None), [], None, Collecting, None,
                     []);
      if !Verifies(entry.validation, None) then (Err(PrimaryReplayFailed), asked)
      else if !Formed(s) then (Err(Malformed), asked)
      else (Ok(s), Saved(asked, s))
  }

  function RestoreScenarios(office: Office, id: Id, cases: seq<Case>): Reply {
    if id !in office.repository then (Err(NotFound), office) else
    var s := office.repository[id];
    if !s.status.Collecting? || s.cases != [] || !s.primary.Verified? || !(1 <= |cases| <= 50)
      then (Err(NotReady), office) else
    var merged := Merged(s.primary.artifact, Scenarios(cases));
    var restored := s.(cases := cases, artifact := None);
    if merged.Err? then (Err(MergeFailed(merged.error)), office)
    else if !Formed(restored) then (Err(Malformed), office)
    else (Ok(restored), Saved(office, restored))
  }

  /** A new scenario reopens the suite: whatever was validated before no longer counts. */
  function AddScenario(office: Office, id: Id, kind: Kind, goal: string, inputs: Inputs, code: string,
                       description: string,
                       result: Discovered): Reply
  {
    if id !in office.repository then (Err(NotFound), office) else
    var s := office.repository[id];
    var named := if code != "" then code else "scenario_" + Decimal(|s.cases| + 1);
    var c := Case(Scenario(kind, named, if description != "" then description else goal, result), goal, inputs);
    var updated := s.(cases := s.cases + [c], artifact := None, status := Collecting);
    if !Open(s) then (Err(NotReady), office)
    else if named in Codes(s.cases) then (Err(DuplicateCode), office)
    else if !CaseFormed(c) || !Formed(updated) then (Err(Malformed), office)
    else (Ok(updated), Saved(office, updated))
  }

  /** The suite and the program an operation on it would validate. */
  function Opened(office: Office, id: Id): Result<(Suite, Artifact), SuiteError> {
    if id !in office.repository then Err(NotFound)
    else if !Open(office.repository[id]) then Err(NotReady)
    else
      var candidate := Candidate(office.repository[id]);
      if candidate.Err? then Err(MergeFailed(candidate.error)) else Ok((office.repository[id], candidate.value))
  }

  function ValidateOpened(v: Validator, office: Office, s: Suite, a: Artifact, tenant: string, inputs: Inputs): Reply {
    var (failed, log) := TryAll(v, office.log, a, tenant, inputs, s.cases);
    var tried := office.(log := log);
    var updated := s.(artifact := Some(WithTenant(a, tenant)), status := Validated);
    if failed.Some? then
      if !TenantName(tenant) then (Err(Malformed), tried)
      else (Err(failed.value), Saved(tried, Noting(s, tenant, failed.value, "compatibility_replay_failed")))
    else if tenant !in a.variants && !TenantName(tenant) then (Err(Malformed), tried)
    else (Ok(updated), Saved(tried, updated))
  }

  /** Admits one more tenant, if the primary and every scenario replay as declared there. */
  function Validate(ports: Ports, office: Office, id: Id, tenant: string, inputs: Inputs): Reply {
    var ready := Opened(office, id);
    if ready.Err? then (Err(ready.error), office) else
    var (s, a) := ready.value;
    if !Registered(ports, s.family, tenant, s.entryPoint) then (Err(NotRegistered), office)
    else if ports.validator.None? then (Err(ValidatorMissing), office)
    else ValidateOpened(ports.validator.value, office, s, a, tenant, inputs)
  }

  function FinalizeOpened(ports: Ports, v: Validator, office: Office, s: Suite, a: Artifact): Reply {
    var (failed, log) := TryAll(v, office.log, a, s.tenant, s.primaryInputs, s.cases);
    var tried := office.(log := log);
    if failed.Some? then (Err(failed.value),
                          Saved(tried, Noting(s, s.tenant, failed.value, "primary_replay_failed"))) else
    var published := ports.registry(|log|, a);
    if published.None? then (Err(PublicationFailed), Saved(tried, s.(artifact := Some(a), status := Validated)))
    else (Ok(Releasing(s, a, published.value)), Saved(tried, Releasing(s, a, published.value)))
  }

  /** Publishes what passes a full replay on the suite's own tenant just now; nothing risky ever gets that far. */
  function Finalize(ports: Ports, office: Office, id: Id): Reply {
    var ready := Opened(office, id);
    if ready.Err? then (Err(ready.error), office) else
    var (s, a) := ready.value;
    if a.risk in {Sensitive, Irreversible}
      then (Err(TooRiskyToPublish), Saved(office, s.(artifact := Some(a), status := Failed)))
    else if ports.validator.None? then (Err(ValidatorMissing), office)
    else FinalizeOpened(ports, ports.validator.value, office, s, a)
  }

  // ---------------------------------------------------------------- runs of operations

  datatype Call =
    | Creating(newId: Id, goal: string, family: string, tenant: string, entryPoint: string, inputs: Inputs,
               result: Discovered)
    | Extending(suite: Id, found: Option<Artifact>, about: string, on: string, using: Inputs)
    | Restoring(into: Id, cases: seq<Case>)
    | Adding(to: Id, kind: Kind, aim: string, with: Inputs, code: string, description: string, evidence: Discovered)
    | Validating(which: Id, at: string, given: Inputs)
    | Finalizing(id: Id)

  /** Fresh suite identifiers, and artifacts that passed their own construction. */
  predicate Sensible(office: Office, call: Call) {
    match call
    case Creating(newId, _, _, _, _, _, result) =>
      newId !in office.repository && (result.Verified? ==> Capability.Validated(result.artifact))
    case Extending(newId, found, _, _, _) =>
      newId !in office.repository && (found.Some? ==> Capability.Validated(found.value))
    case Restoring(_, cases) => forall c <- cases :: CaseFormed(c)
    case Adding(_, _, _, _, _, _, result) => result.Verified? ==> Capability.Validated(result.artifact)
    case _ => true
  }

  function Answer(ports: Ports, office: Office, call: Call): Reply {
    match call
    case Creating(newId, goal, family, tenant, entryPoint, inputs, result) =>
      Create(ports, office, newId, goal, family, tenant, entryPoint, inputs, result)
    case Extending(newId, found, goal, tenant, inputs) => FromPublished(ports, office, newId, found, goal, tenant,
                                                                        inputs)
    case Restoring(id, cases) => RestoreScenarios(office, id, cases)
    case Adding(id, kind, goal, inputs, code, description, result) =>
      AddScenario(office, id, kind, goal, inputs, code, description, result)
    case Validating(id, tenant, inputs) => Validate(ports, office, id, tenant, inputs)
    case Finalizing(id) => Finalize(ports, office, id)
  }

  function Serve(ports: Ports, calls: seq<Call>): Office {
    if calls == [] then Office(map[], [])
    else Answer(ports, Serve(ports, calls[..|calls| - 1]), calls[|calls| - 1]).1
  }

  ghost predicate AllSensible(ports: Ports, calls: seq<Call>) {
    forall n :: 0 <= n < |calls| ==> Sensible(Serve(ports, calls[..n]), calls[n])
  }

  ghost predicate Kept(office: Office) {
    forall id <- office.repository :: office.repository[id].id == id && Gated(office.log, office.repository[id])
  }

  lemma {:induction false} CasesProve(v: Validator, log: seq<Replayed>, a: Artifact, tenant: string, cases: seq<Case>)
    ensures
      var (passed, log') := TryCases(v, log, a, tenant, cases);
      && log <= log'
      && (passed ==> forall k :: 0 <= k < |cases| ==>
            PassedOnce(log', a, tenant, Some(cases[k].inputs), Some(cases[k].scenario)))
    decreases |cases|
  {
    if cases != [] {
      var entry := Asked(v, log, a, tenant, cases[0].inputs);
      CasesProve(v, log + [entry], a, tenant, cases[1..]);
      var (passed, log') := TryCases(v, log, a, tenant, cases);
      if passed {
        assert Passed(log'[|log|], a, tenant, Some(cases[0].scenario));
        forall k | 0 <= k < |cases| ensures PassedOnce(log', a, tenant, Some(cases[k].inputs),
                                                       Some(cases[k].scenario)) {
          if k > 0 {
            assert cases[1..][k - 1] == cases[k];
          }
        }
      }
    }
  }

  lemma AllProve(v: Validator, log: seq<Replayed>, a: Artifact, tenant: string, inputs: Inputs, cases: seq<Case>)
    ensures
      var (failed, log') := TryAll(v, log, a, tenant, inputs, cases);
      && log <= log'
      && (failed.None? ==> Proved(log', a, cases, tenant, Some(inputs)))
  {
    var entry := Asked(v, log, a, tenant, inputs);
    CasesProve(v, log + [entry], a, tenant, cases);
    var (failed, log') := TryAll(v, log, a, tenant, inputs, cases);
    if failed.None? {
      assert Passed(log'[|log|], a, tenant, None);
    }
  }

  lemma KeptGrows(office: Office, more: Office)
    requires Kept(office) && office.log <= more.log && more.repository == office.repository
    ensures Kept(more)
  {
    forall id <- more.repository ensures Gated(more.log, more.repository[id]) {
      GatedGrows(office.log, more.log, more.repository[id]);
    }
  }

  lemma KeptSaves(office: Office, s: Suite)
    requires Kept(office) && Gated(office.log, s)
    ensures Kept(Saved(office, s))
  {
  }

  lemma OpenedIsEarned(office: Office, id: Id)
    requires Kept(office) && Opened(office, id).Ok?
    ensures
      var (s, a) := Opened(office, id).value;
      Gated(office.log, s) && s.id == id && Open(s) && Earned(office.log, s, a) && a.family == s.family
  {
    var (s, a) := Opened(office, id).value;
    MergedIsEarned(office.log, s, a);
  }

  /** The tenant that was just proved may be admitted. */
  lemma Widened(log: seq<Replayed>, s: Suite, a: Artifact, tenant: string, inputs: Inputs)
    requires Gated(log, s) && Open(s) && Earned(log, s, a) && a.family == s.family
    requires Proved(log, a, s.cases, tenant, Some(inputs))
    ensures Gated(log, s.(artifact := Some(WithTenant(a, tenant)), status := Validated))
  {
    var b := WithTenant(a, tenant);
    assert Proved(log, b, s.cases, tenant, None) by {
      ProvedGrows(log, log, a, b, s.cases, tenant, Some(inputs));
    }
    RelabelledStaysValid(a, b);
    EarnedGrows(log, log, s, a, b);
  }

  lemma Releasable(log: seq<Replayed>, s: Suite, a: Artifact, stamp: (string, string))
    requires Gated(log, s) && Open(s) && Earned(log, s, a) && a.family == s.family && Rank(a.risk) <= Rank(Reversible)
    requires Proved(log, a, s.cases, s.tenant, Some(s.primaryInputs))
    ensures Gated(log, Releasing(s, a, stamp))
  {
    var b := Releasing(s, a, stamp).artifact.value;
    RelabelledStaysValid(a, b);
    EarnedGrows(log, log, s, a, b);
    ProvedGrows(log, log, a, b, s.cases, s.tenant, Some(s.primaryInputs));
    LowRiskIsHarmless(b);
  }

  lemma ValidateKeeps(v: Validator, office: Office, s: Suite, a: Artifact, tenant: string, inputs: Inputs)
    requires Kept(office) && Gated(office.log, s) && Open(s) && Earned(office.log, s, a) && a.family == s.family
    ensures Kept(ValidateOpened(v, office, s, a, tenant, inputs).1)
  {
    AllProve(v, office.log, a, tenant, inputs, s.cases);
    var (failed, log) := TryAll(v, office.log, a, tenant, inputs, s.cases);
    var tried := office.(log := log);
    KeptGrows(office, tried);
    GatedGrows(office.log, log, s);
    if failed.Some? {
      KeptSaves(tried, Noting(s, tenant, failed.value, "compatibility_replay_failed"));
    } else {
      EarnedGrows(office.log, log, s, a, a);
      Widened(log, s, a, tenant, inputs);
      KeptSaves(tried, s.(artifact := Some(WithTenant(a, tenant)), status := Validated));
    }
  }

  lemma FinalizeKeeps(ports: Ports, v: Validator, office: Office, s: Suite, a: Artifact)
    requires Kept(office) && Gated(office.log, s) && Open(s) && Earned(office.log, s, a) && a.family == s.family
    requires Rank(a.risk) <= Rank(Reversible)
    ensures Kept(FinalizeOpened(ports, v, office, s, a).1)
  {
    AllProve(v, office.log, a, s.tenant, s.primaryInputs, s.cases);
    var (failed, log) := TryAll(v, office.log, a, s.tenant, s.primaryInputs, s.cases);
    var tried := office.(log := log);
    KeptGrows(office, tried);
    GatedGrows(office.log, log, s);
    if failed.Some? {
      KeptSaves(tried, Noting(s, s.tenant, failed.value, "primary_replay_failed"));
    } else {
      EarnedGrows(office.log, log, s, a, a);
      var published := ports.registry(|log|, a);
      if published.None? {
        KeptSaves(tried, s.(artifact := Some(a), status := Validated));
      } else {
        Releasable(log, s, a, published.value);
        KeptSaves(tried, Releasing(s, a, published.value));
      }
    }
  }

  lemma CreateKeeps(ports: Ports, office: Office, call: Call)
    requires Kept(office) && Sensible(office, call) && call.Creating?
    ensures Kept(Answer(ports, office, call).1)
  {
  }

  lemma ExtendKeeps(ports: Ports, office: Office, call: Call)
    requires Kept(office) && Sensible(office, call) && call.Extending?
    ensures Kept(Answer(ports, office, call).1)
  {
    if call.found.Some? && ports.validator.Some? {
      KeptGrows(office, office.(log := office.log
                                + [Asked(ports.validator.value, office.log, call.found.value, call.on, call.using)]));
    }
  }

  lemma RestoreKeeps(office: Office, id: Id, cases: seq<Case>)
    requires Kept(office)
    ensures Kept(RestoreScenarios(office, id, cases).1)
  {
    if RestoreScenarios(office, id, cases).0.Ok? {
      KeptSaves(office, office.repository[id].(cases := cases, artifact := None));
    }
  }

  lemma AddKeeps(office: Office, call: Call)
    requires Kept(office) && call.Adding?
    ensures Kept(AddScenario(office, call.to, call.kind, call.aim, call.with, call.code, call.description,
                             call.evidence).1)
  {
    var (r, after) := AddScenario(office, call.to, call.kind, call.aim, call.with, call.code, call.description,
                                  call.evidence);
    if r.Ok? {
      KeptSaves(office, r.value);
    }
  }

  lemma ValidateCallKeeps(ports: Ports, office: Office, id: Id, tenant: string, inputs: Inputs)
    requires Kept(office)
    ensures Kept(Validate(ports, office, id, tenant, inputs).1)
  {
    if Opened(office, id).Ok? && ports.validator.Some? {
      OpenedIsEarned(office, id);
      ValidateKeeps(ports.validator.value, office, Opened(office, id).value.0, Opened(office, id).value.1, tenant,
                    inputs);
    }
  }

  lemma FinalizeCallKeeps(ports: Ports, office: Office, id: Id)
    requires Kept(office)
    ensures Kept(Finalize(ports, office, id).1)
  {
    if Opened(office, id).Ok? {
      OpenedIsEarned(office, id);
      var (s, a) := Opened(office, id).value;
      if a.risk in {Sensitive, Irreversible} {
        KeptSaves(office, s.(artifact := Some(a), status := Failed));
      } else if ports.validator.Some? {
        FinalizeKeeps(ports, ports.validator.value, office, s, a);
      }
    }
  }

  lemma AnswerKeeps(ports: Ports, office: Office, call: Call)
    requires Kept(office) && Sensible(office, call)
    ensures Kept(Answer(ports, office, call).1)
  {
    match call
    case Creating(_, _, _, _, _, _, _) => CreateKeeps(ports, office, call);
    case Extending(_, _, _, _, _) => ExtendKeeps(ports, office, call);
    case Restoring(id, cases) => RestoreKeeps(office, id, cases);
    case Adding(_, _, _, _, _, _, _) => AddKeeps(office, call);
    case Validating(id, tenant, inputs) => ValidateCallKeeps(ports, office, id, tenant, inputs);
    case Finalizing(id) => FinalizeCallKeeps(ports, office, id);
  }

  lemma {:induction false} ServeKeeps(ports: Ports, calls: seq<Call>)
    requires AllSensible(ports, calls)
    ensures Kept(Serve(ports, calls))
  {
    if calls != [] {
      var rest := calls[..|calls| - 1];
      forall n | 0 <= n < |rest| ensures Sensible(Serve(ports, rest[..n]), rest[n]) {
        assert rest[..n] == calls[..n];
      }
      ServeKeeps(ports, rest);
      AnswerKeeps(ports, Serve(ports, rest), calls[|calls| - 1]);
    }
  }

  /**
  The publication gate. After any sequence of operations, a published suite holds the merge of its primary
  with its current scenarios, up to tenants, version and hash; that program passed the primary and every
  scenario on the suite's tenant, and on each tenant beyond the primary's own; and no step of it, of the
  main run or of a recovery, is riskier than reversible.
  */
  lemma PublishedIsEarned(ports: Ports, calls: seq<Call>, id: Id)
    requires AllSensible(ports, calls) && id in Serve(ports, calls).repository
    requires Serve(ports, calls).repository[id].status.Published?
    ensures
      var s, log := Serve(ports, calls).repository[id], Serve(ports, calls).log;
      && s.primary.Verified? && s.artifact.Some? && Merged(s.primary.artifact, Scenarios(s.cases)).Ok?
      && var a, merged := s.artifact.value, Merged(s.primary.artifact, Scenarios(s.cases)).value;
      && SameProgram(a, merged) && s.publishedVersion == Some(a.version)
      && Proved(log, merged, s.cases, s.tenant, Some(s.primaryInputs))
      && (forall tenant <- a.variants ::
            tenant in s.primary.artifact.variants || Proved(log, merged, s.cases, tenant, None))
      && Harmless(a)
  {
    ServeKeeps(ports, calls);
    var s, log := Serve(ports, calls).repository[id], Serve(ports, calls).log;
    var a, merged := s.artifact.value, Merged(s.primary.artifact, Scenarios(s.cases)).value;
    ProvedGrows(log, log, a, merged, s.cases, s.tenant, Some(s.primaryInputs));
    forall tenant <- a.variants
      ensures tenant in s.primary.artifact.variants || Proved(log, merged, s.cases, tenant, None)
    {
      if tenant !in s.primary.artifact.variants {
        ProvedGrows(log, log, a, merged, s.cases, tenant, None);
      }
    }
  }

  /** Of this program a replay on the tenant is logged that ended so and completed just these recoveries. */
  ghost predicate Logged(log: seq<Replayed>, a: Artifact, tenant: string, inputs: Inputs, result: Disposition,
                         completed: seq<Id>)
  {
    exists k :: 0 <= k < |log| && SameProgram(log[k].artifact, a) && log[k].tenant == tenant && log[k].inputs == inputs
                && log[k].validation == Validation(result, completed)
  }

  /** How the replay of a scenario is to end: a recovery in success, a branch in just its own code. */
  function EndOf(s: Scenario): Disposition {
    match s.kind
    case RecoveryBranch => Succeeded
    case OutcomeBranch => EndedIn(s.code)
    case FailureBranch => FailedWith(s.code)
  }

  /**
  What was published was seen to work: on the suite's tenant a replay of the primary's inputs succeeded without any
  recovery, and for each scenario a replay of its inputs ended in its own outcome or failure without any recovery,
  or succeeded through exactly the one recovery it stands for.
  */
  lemma PublishedWasSeenToWork(ports: Ports, calls: seq<Call>, id: Id)
    requires AllSensible(ports, calls) && id in Serve(ports, calls).repository
    requires Serve(ports, calls).repository[id].status.Published?
    ensures
      var s, log := Serve(ports, calls).repository[id], Serve(ports, calls).log;
      && s.artifact.Some?
      && Logged(log, s.artifact.value, s.tenant, s.primaryInputs, Succeeded, [])
      && (forall c <- s.cases ::
            Logged(log, s.artifact.value, s.tenant, c.inputs, EndOf(c.scenario),
                   if c.scenario.kind.RecoveryBranch? then [c.scenario.code] else []))
  {
    ServeKeeps(ports, calls);
    var s, log := Serve(ports, calls).repository[id], Serve(ports, calls).log;
    ProvedIsLogged(log, s.artifact.value, s.cases, s.tenant, s.primaryInputs);
  }

  lemma ProvedIsLogged(log: seq<Replayed>, a: Artifact, cases: seq<Case>, tenant: string, inputs: Inputs)
    requires Proved(log, a, cases, tenant, Some(inputs))
    ensures Logged(log, a, tenant, inputs, Succeeded, [])
    ensures forall c <- cases ::
              Logged(log, a, tenant, c.inputs, EndOf(c.scenario),
                     if c.scenario.kind.RecoveryBranch? then [c.scenario.code] else [])
  {
    forall c <- cases
      ensures Logged(log, a, tenant, c.inputs, EndOf(c.scenario),
                     if c.scenario.kind.RecoveryBranch? then [c.scenario.code] else [])
    {
      var k :| 0 <= k < |cases| && cases[k] == c;
      assert PassedOnce(log, a, tenant, Some(cases[k].inputs), Some(cases[k].scenario));
    }
  }

  // ---------------------------------------------------------------- what a publication takes

  /** Asked in this order, from the `n`th replay on, the validator confirms the primary and every scenario. */
  ghost predicate Confirms(v: Validator, n: nat, a: Artifact, tenant: string, inputs: Inputs, cases: seq<Case>) {
    && Verifies(v(n, a, tenant, inputs), None)
    && (forall k :: 0 <= k < |cases| ==> Verifies(v(n + 1 + k, a, tenant, cases[k].inputs), Some(cases[k].scenario)))
  }

  lemma {:induction false} CasesExactly(v: Validator, log: seq<Replayed>, a: Artifact, tenant: string, cases: seq<Case>)
    ensures TryCases(v, log, a, tenant, cases).0 <==>
            forall k :: 0 <= k < |cases| ==> Verifies(v(|log| + k, a, tenant, cases[k].inputs), Some(cases[k].scenario))
    ensures TryCases(v, log, a, tenant, cases).0 ==> |TryCases(v, log, a, tenant, cases).1| == |log| + |cases|
    decreases |cases|
  {
    if cases != [] {
      var entry := Asked(v, log, a, tenant, cases[0].inputs);
      var rest := cases[1..];
      CasesExactly(v, log + [entry], a, tenant, rest);
      if Verifies(entry.validation, Some(cases[0].scenario)) {
        forall k | 0 <= k < |cases|
          ensures k > 0 ==> Verifies(v(|log| + k, a, tenant, cases[k].inputs), Some(cases[k].scenario))
                            == Verifies(v(|log + [entry]| + (k - 1), a, tenant, rest[k - 1].inputs),
                                        Some(rest[k - 1].scenario))
        {
        }
        assert forall j :: 0 <= j < |rest| ==> rest[j] == cases[j + 1];
      }
    }
  }

  lemma OpenedPublishesExactly(ports: Ports, office: Office, id: Id)
    requires ports.validator.Some? && id in office.repository && Open(office.repository[id])
    requires Candidate(office.repository[id]).Ok?
    ensures
      var s, a, n := office.repository[id], Candidate(office.repository[id]).value, |office.log|;
      Finalize(ports, office, id).0.Ok? <==>
        && Rank(a.risk) <= Rank(Reversible)
        && Confirms(ports.validator.value, n, a, s.tenant, s.primaryInputs, s.cases)
        && ports.registry(n + 1 + |s.cases|, a).Some?
  {
    var s, a, v := office.repository[id], Candidate(office.repository[id]).value, ports.validator.value;
    var entry := Asked(v, office.log, a, s.tenant, s.primaryInputs);
    CasesExactly(v, office.log + [entry], a, s.tenant, s.cases);
  }

  /**
  A suite is published if and only if it exists, is open, its evidence merges, the result declares at most
  reversible risk, there is a validator and each of the replays asked of it ends as declared, and the registry
  accepts.
  */
  lemma PublishesExactly(ports: Ports, office: Office, id: Id)
    ensures
      Finalize(ports, office, id).0.Ok? <==>
        && id in office.repository && Open(office.repository[id]) && Candidate(office.repository[id]).Ok?
        && ports.validator.Some?
        && var s, a, n := office.repository[id], Candidate(office.repository[id]).value, |office.log|;
        && Rank(a.risk) <= Rank(Reversible)
        && Confirms(ports.validator.value, n, a, s.tenant, s.primaryInputs, s.cases)
        && ports.registry(n + 1 + |s.cases|, a).Some?
  {
    if id in office.repository && Open(office.repository[id]) && Candidate(office.repository[id]).Ok?
       && ports.validator.Some? {
      OpenedPublishesExactly(ports, office, id);
    }
  }

  // ---------------------------------------------------------------- what the other operations take

  /** A published program is taken up again exactly if it still succeeds, unaided, where it is to be used. */
  lemma ExtendsExactly(ports: Ports, office: Office, newId: Id, found: Option<Artifact>, goal: string, tenant: string,
                       inputs: Inputs)
    ensures
      var (reply, after) := FromPublished(ports, office, newId, found, goal, tenant, inputs);
      && (reply.Ok? <==>
            && found.Some? && ports.validator.Some?
            && (ports.targets.Some? ==> ports.targets.value(found.value.family, tenant, found.value.entryPoint))
            && ports.validator.value(|office.log|, found.value, tenant, inputs) == Validation(Succeeded, [])
            && !Blank(goal) && TenantName(tenant)
            && Word(found.value.family, 2, false) && Word(found.value.entryPoint, 2, false))
      && (reply.Ok? ==>
            && after.repository == office.repository[newId := reply.value]
            && reply.value.primary == Verified(found.value, None) && reply.value.cases == []
            && reply.value.status.Collecting? && reply.value.tenant == tenant && reply.value.primaryInputs == inputs)
  {
  }

  /** A scenario without a code is numbered. */
  function NameOf(s: Suite, code: string): string {
    if code == "" then "scenario_" + Decimal(|s.cases| + 1) else code
  }

  /** A scenario joins an open suite exactly under a code of its own; whatever was validated before no longer counts. */
  lemma AddsExactly(office: Office, id: Id, kind: Kind, goal: string, inputs: Inputs, code: string,
                    description: string, result: Discovered)
    requires Kept(office)
    ensures
      var (reply, after) := AddScenario(office, id, kind, goal, inputs, code, description, result);
      && (reply.Ok? ==> id in office.repository)
      && (id in office.repository ==>
            var named := NameOf(office.repository[id], code);
            reply.Ok? <==>
            && office.repository[id].primary.Verified?
            && (office.repository[id].status.Collecting? || office.repository[id].status.Validated?)
            && (forall c <- office.repository[id].cases :: c.scenario.code != named)
            && Word(named, 1, false) && !Blank(goal) && (description != "" ==> !Blank(description))
            && (result.Verified? ==> Capability.Validated(result.artifact)))
      && (reply.Ok? ==>
            var named := NameOf(office.repository[id], code);
            && after == office.(repository := office.repository[id := reply.value])
            && reply.value.status.Collecting? && reply.value.artifact.None?
            && reply.value.cases == office.repository[id].cases
                 + [Case(Scenario(kind, named, if description == "" then goal else description, result), goal, inputs)])
  {
    if id in office.repository {
      var s := office.repository[id];
      var named := NameOf(s, code);
      NamedAmong(s.cases, named);
      AddsOpened(office, s, kind, goal, inputs, code, description, result,
                 Case(Scenario(kind, named, if description == "" then goal else description, result), goal, inputs));
    }
  }

  lemma AddsOpened(office: Office, s: Suite, kind: Kind, goal: string, inputs: Inputs, code: string,
                   description: string, result: Discovered, c: Case)
    requires Kept(office) && s.id in office.repository && office.repository[s.id] == s
    requires c == Case(Scenario(kind, NameOf(s, code), if description == "" then goal else description, result), goal,
                       inputs)
    ensures
      var (reply, after) := AddScenario(office, s.id, kind, goal, inputs, code, description, result);
      && (reply.Ok? <==> Open(s) && c.scenario.code !in Codes(s.cases) && CaseFormed(c))
      && (reply.Ok? ==>
            && reply.value == s.(cases := s.cases + [c], artifact := None, status := Collecting)
            && after == office.(repository := office.repository[s.id := reply.value]))
  {
    if Open(s) && c.scenario.code !in Codes(s.cases) {
      AddingKeepsForm(office.log, s, c);
    }
  }

  lemma AddingKeepsForm(log: seq<Replayed>, s: Suite, c: Case)
    requires Gated(log, s) && Open(s) && c.scenario.code !in Codes(s.cases)
    ensures Formed(s.(cases := s.cases + [c], artifact := None, status := Collecting))
  {
    OneMoreCode(s.cases, c);
    if s.artifact.Some? {
      MergeExtends(s.primary.artifact, Scenarios(s.cases));
    }
  }

  lemma NamedAmong(cases: seq<Case>, code: Id)
    ensures code in Codes(cases) <==> exists c <- cases :: c.scenario.code == code
  {
    if code in Codes(cases) {
      var k :| 0 <= k < |cases| && Codes(cases)[k] == code;
      assert cases[k] in cases;
    }
    if exists c <- cases :: c.scenario.code == code {
      var c :| c in cases && c.scenario.code == code;
      var k :| 0 <= k < |cases| && cases[k] == c;
      assert Codes(cases)[k] == code;
    }
  }

  lemma OneMoreCode(cases: seq<Case>, c: Case)
    requires Unique(Codes(cases)) && c.scenario.code !in Codes(cases)
    ensures Unique(Codes(cases + [c]))
  {
    assert Codes(cases + [c]) == Codes(cases) + [c.scenario.code];
  }

  /** One more tenant is admitted exactly if the merged program ends every replay there as declared. */
  lemma AdmitsTenantExactly(ports: Ports, office: Office, id: Id, tenant: string, inputs: Inputs)
    requires Kept(office)
    ensures
      var (reply, after) := Validate(ports, office, id, tenant, inputs);
      && (reply.Ok? <==>
            && id in office.repository && Open(office.repository[id]) && Candidate(office.repository[id]).Ok?
            && ports.validator.Some?
            && var s, a := office.repository[id], Candidate(office.repository[id]).value;
            && (ports.targets.Some? ==> ports.targets.value(s.family, tenant, s.entryPoint))
            && Confirms(ports.validator.value, |office.log|, a, tenant, inputs, s.cases)
            && (tenant in a.variants || TenantName(tenant)))
      && (reply.Ok? ==>
            && after.repository == office.repository[id := reply.value]
            && reply.value.status.Validated? && reply.value.artifact.Some?
            && SameProgram(reply.value.artifact.value, Candidate(office.repository[id]).value)
            && (forall t :: t in reply.value.artifact.value.variants <==>
                            t in Candidate(office.repository[id]).value.variants || t == tenant))
  {
    if id in office.repository && Open(office.repository[id]) && Candidate(office.repository[id]).Ok?
       && ports.validator.Some? {
      TenantConfirmed(ports.validator.value, office, office.repository[id], Candidate(office.repository[id]).value,
                      tenant, inputs);
    }
  }

  lemma TenantConfirmed(v: Validator, office: Office, s: Suite, a: Artifact, tenant: string, inputs: Inputs)
    ensures ValidateOpened(v, office, s, a, tenant, inputs).0.Ok? <==>
              Confirms(v, |office.log|, a, tenant, inputs, s.cases) && (tenant in a.variants || TenantName(tenant))
  {
    CasesExactly(v, office.log + [Asked(v, office.log, a, tenant, inputs)], a, tenant, s.cases);
  }

  /** What was published is final: no later operation changes it. */
  lemma {:induction false} PublishedIsFinal(ports: Ports, calls: seq<Call>, n: nat, id: Id)
    requires AllSensible(ports, calls) && n <= |calls|
    requires id in Serve(ports, calls[..n]).repository && Serve(ports, calls[..n]).repository[id].status.Published?
    ensures id in Serve(ports, calls).repository
    ensures Serve(ports, calls).repository[id] == Serve(ports, calls[..n]).repository[id]
  {
    if n == |calls| {
      assert calls[..n] == calls;
    } else {
      var rest := calls[..|calls| - 1];
      forall k | 0 <= k < |rest| ensures Sensible(Serve(ports, rest[..k]), rest[k]) {
        assert rest[..k] == calls[..k];
      }
      assert rest[..n] == calls[..n];
      PublishedIsFinal(ports, rest, n, id);
      assert calls[..|rest|] == rest && Sensible(Serve(ports, calls[..|rest|]), calls[|rest|]);
      ServeKeeps(ports, rest);
      AnswerSparesPublished(ports, Serve(ports, rest), calls[|calls| - 1], id);
    }
  }

  /** The suite stays as it is. */
  predicate Spares(office: Office, after: Office, id: Id) {
    id in office.repository && id in after.repository && after.repository[id] == office.repository[id]
  }

  lemma ValidateSpares(ports: Ports, office: Office, which: Id, tenant: string, inputs: Inputs, id: Id)
    requires Kept(office) && id in office.repository && office.repository[id].status.Published?
    ensures Spares(office, Validate(ports, office, which, tenant, inputs).1, id)
  {
    var ready := Opened(office, which);
    if ready.Ok? && ports.validator.Some? {
      OpenedSpares(ports.validator.value, office, ready.value.0, ready.value.1, tenant, inputs, id);
    }
  }

  lemma OpenedSpares(v: Validator, office: Office, s: Suite, a: Artifact, tenant: string, inputs: Inputs, id: Id)
    requires id in office.repository && s.id != id
    ensures Spares(office, ValidateOpened(v, office, s, a, tenant, inputs).1, id)
  {
  }

  lemma FinalizeSpares(ports: Ports, office: Office, which: Id, id: Id)
    requires Kept(office) && id in office.repository && office.repository[id].status.Published?
    ensures Spares(office, Finalize(ports, office, which).1, id)
  {
    var ready := Opened(office, which);
    if ready.Ok? && ports.validator.Some? {
      ReleaseSpares(ports, ports.validator.value, office, ready.value.0, ready.value.1, id);
    }
  }

  lemma ReleaseSpares(ports: Ports, v: Validator, office: Office, s: Suite, a: Artifact, id: Id)
    requires id in office.repository && s.id != id
    ensures Spares(office, FinalizeOpened(ports, v, office, s, a).1, id)
  {
  }

  lemma AnswerSparesPublished(ports: Ports, office: Office, call: Call, id: Id)
    requires Kept(office) && Sensible(office, call)
    requires id in office.repository && office.repository[id].status.Published?
    ensures Spares(office, Answer(ports, office, call).1, id)
  {
    match call
    case Validating(which, tenant, inputs) => ValidateSpares(ports, office, which, tenant, inputs, id);
    case Finalizing(which) => FinalizeSpares(ports, office, which, id);
    case Restoring(into, cases) => RestoreSpares(office, into, cases, id);
    case Adding(_, _, _, _, _, _, _) => AddSpares(office, call, id);
    case Creating(_, _, _, _, _, _, _) =>
    case Extending(_, _, _, _, _) =>
  }

  lemma RestoreSpares(office: Office, into: Id, cases: seq<Case>, id: Id)
    requires Kept(office) && id in office.repository && office.repository[id].status.Published?
    ensures Spares(office, RestoreScenarios(office, into, cases).1, id)
  {
  }

  lemma AddSpares(office: Office, call: Call, id: Id)
    requires Kept(office) && call.Adding? && id in office.repository && office.repository[id].status.Published?
    ensures Spares(office, AddScenario(office, call.to, call.kind, call.aim, call.with, call.code, call.description,
                                       call.evidence).1, id)
  {
  }

  // ---------------------------------------------------------------- the service

  class DiscoverySuiteService {
    const ports: Ports
    var repository: map<Id, Suite>
    var log: seq<Replayed>

    function State(): Office
      reads this
    {
      Office(repository, log)
    }

    constructor (ports: Ports)
      ensures this.ports == ports && State() == Serve(ports, [])
    {
      this.ports := ports;
      repository, log := map[], [];
    }

    method ProveAll(v: Validator, a: Artifact, tenant: string, inputs: Inputs, cases: seq<Case>)
      returns (failed: Option<SuiteError>)
      modifies this`log
      ensures (failed, log) == TryAll(v, old(log), a, tenant, inputs, cases)
    {
      var entry := Asked(v, log, a, tenant, inputs);
      log := log + [entry];
      if !Verifies(entry.validation, None) { return Some(PrimaryReplayFailed); }
      ghost var first := log;
      var k := 0;
      while k < |cases|
        invariant k <= |cases|
        invariant TryCases(v, first, a, tenant, cases) == TryCases(v, log, a, tenant, cases[k..])
      {
        assert cases[k..][1..] == cases[k + 1..];
        entry := Asked(v, log, a, tenant, cases[k].inputs);
        log := log + [entry];
        if !Verifies(entry.validation, Some(cases[k].scenario)) { return Some(ScenarioReplayFailed); }
        k := k + 1;
      }
      failed := None;
    }

    method CandidateOf(s: Suite) returns (candidate: Result<Artifact, MergeError>)
      requires s.primary.Verified?
      ensures candidate == Candidate(s)
    {
      if s.artifact.Some? { return Ok(s.artifact.value); }
      candidate := MergeScenarios(s.primary.artifact, Scenarios(s.cases));
    }

    method Find(id: Id) returns (ready: Result<(Suite, Artifact), SuiteError>)
      ensures ready == Opened(State(), id)
    {
      if id !in repository { return Err(NotFound); }
      if !Open(repository[id]) { return Err(NotReady); }
      var candidate := CandidateOf(repository[id]);
      ready := if candidate.Err? then Err(MergeFailed(candidate.error)) else Ok((repository[id], candidate.value));
    }

    method Create(newId: Id, goal: string, family: string, tenant: string, entryPoint: string, inputs: Inputs,
                  result: Discovered)
      returns (r: Result<Suite, SuiteError>)
      modifies this
      ensures (r, State()) == Answer(ports, old(State()),
                                     Creating(newId, goal, family, tenant, entryPoint, inputs, result))
    {
      if !Registered(ports, family, tenant, entryPoint) { return Err(NotRegistered); }
      var s := Suite(newId, goal, family, tenant, entryPoint, inputs, result, [], None,
                     if result.Verified? then Collecting else Failed, None, []);
      if !Formed(s) { return Err(Malformed); }
      repository := repository[newId := s];
      r := Ok(s);
    }

    method FromPublished(newId: Id, found: Option<Artifact>, goal: string, tenant: string, inputs: Inputs)
      returns (r: Result<Suite, SuiteError>)
      modifies this
      ensures (r, State()) == Answer(ports, old(State()), Extending(newId, found, goal, tenant, inputs))
    {
      if found.None? { return Err(NotFound); }
      var a := found.value;
      if !Registered(ports, a.family, tenant, a.entryPoint) { return Err(NotRegistered); }
      if ports.validator.None? { return Err(PrimaryReplayFailed); }
      var entry := Asked(ports.validator.value, log, a, tenant, inputs);
      log := log + [entry];
      if !Verifies(entry.validation, None) { return Err(PrimaryReplayFailed); }
      var s := Suite(newId, goal, a.family, tenant, a.entryPoint, inputs, Verified(a, None), [], None, Collecting, None,
                     []);
      if !Formed(s) { return Err(Malformed); }
      repository := repository[newId := s];
      r := Ok(s);
    }

    method RestoreScenarios(id: Id, cases: seq<Case>) returns (r: Result<Suite, SuiteError>)
      modifies this
      ensures (r, State()) == Answer(ports, old(State()), Restoring(id, cases))
    {
      if id !in repository { return Err(NotFound); }
      var s := repository[id];
      if !s.status.Collecting? || s.cases != [] { return Err(NotReady); }
      if !s.primary.Verified? || !(1 <= |cases| <= 50) { return Err(NotReady); }
      var merged := MergeScenarios(s.primary.artifact, Scenarios(cases));
      if merged.Err? { return Err(MergeFailed(merged.error)); }
      var restored := s.(cases := cases, artifact := None);
      if !Formed(restored) { return Err(Malformed); }
      repository := repository[s.id := restored];
      r := Ok(restored);
    }

    method AddScenario(id: Id, kind: Kind, goal: string, inputs: Inputs, code: string, description: string,
                       result: Discovered)
      returns (r: Result<Suite, SuiteError>)
      modifies this
      ensures (r, State()) == Answer(ports, old(State()), Adding(id, kind, goal, inputs, code, description, result))
    {
      if id !in repository { return Err(NotFound); }
      var s := repository[id];
      if !Open(s) { return Err(NotReady); }
      var named := if code != "" then code else "scenario_" + Decimal(|s.cases| + 1);
      if named in Codes(s.cases) { return Err(DuplicateCode); }
      var c := Case(Scenario(kind, named, if description != "" then description else goal, result), goal, inputs);
      if !CaseFormed(c) { return Err(Malformed); }
      var updated := s.(cases := s.cases + [c], artifact := None, status := Collecting);
      if !Formed(updated) { return Err(Malformed); }
      repository := repository[s.id := updated];
      r := Ok(updated);
    }

    method Validate(id: Id, tenant: string, inputs: Inputs) returns (r: Result<Suite, SuiteError>)
      modifies this
      ensures (r, State()) == Answer(ports, old(State()), Validating(id, tenant, inputs))
    {
      var ready := Find(id);
      if ready.Err? { return Err(ready.error); }
      var (s, a) := ready.value;
      if !Registered(ports, s.family, tenant, s.entryPoint) { return Err(NotRegistered); }
      if ports.validator.None? { return Err(ValidatorMissing); }
      var failed := ProveAll(ports.validator.value, a, tenant, inputs, s.cases);
      if failed.Some? {
        if !TenantName(tenant) { return Err(Malformed); }
        repository := repository[s.id := Noting(s, tenant, failed.value, "compatibility_replay_failed")];
        return Err(failed.value);
      }
      if tenant !in a.variants && !TenantName(tenant) { return Err(Malformed); }
      var updated := s.(artifact := Some(WithTenant(a, tenant)), status := Validated);
      repository := repository[s.id := updated];
      r := Ok(updated);
    }

    method Finalize(id: Id) returns (r: Result<Suite, SuiteError>)
      modifies this
      ensures (r, State()) == Answer(ports, old(State()), Finalizing(id))
    {
      var ready := Find(id);
      if ready.Err? { return Err(ready.error); }
      var (s, a) := ready.value;
      if a.risk in {Sensitive, Irreversible} {
        repository := repository[s.id := s.(artifact := Some(a), status := Failed)];
        return Err(TooRiskyToPublish);
      }
      if ports.validator.None? { return Err(ValidatorMissing); }
      var failed := ProveAll(ports.validator.value, a, s.tenant, s.primaryInputs, s.cases);
      if failed.Some? {
        repository := repository[s.id := Noting(s, s.tenant, failed.value, "primary_replay_failed")];
        return Err(failed.value);
      }
      var published := ports.registry(|log|, a);
      if published.None? {
        repository := repository[s.id := s.(artifact := Some(a), status := Validated)];
        return Err(PublicationFailed);
      }
      repository := repository[s.id := Releasing(s, a, published.value)];
      r := Ok(Releasing(s, a, published.value));
    }
  }
}
