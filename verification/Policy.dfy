/** The policy decision cascade, and exactly what an allowed action may be. */
module Policy {
  import opened Prelude
  import opened Capability

  datatype Principal = Automation | Human(id: Id)

  datatype Mode = DiscoveryMode | ReplayMode | HumanControl

  datatype EffectivePolicy = EffectivePolicy(allowedActions: set<string>, forbiddenClasses: set<string>,
                                             maximumRisk: Risk)

  /** `description` is case-folded; whether the location is on the lists is decided outside. */
  datatype Context = Context(
    principal: Principal,
    mode: Mode,
    owner: string,
    originAllowed: bool,
    routeAllowed: bool,
    action: string,
    description: string,
    declared: Risk,
    registered: Option<Risk>,
    fieldClass: Option<string>)

  datatype Decision = Allow | Deny | RequireApproval

  datatype Verdict = Verdict(decision: Decision, reason: string, risk: Risk)

  const SENSITIVE_WORDS := {"transfer", "wire", "close account", "approve", "reveal", "full account"}
  const IRREVERSIBLE_WORDS := {"submit transfer", "send wire", "close account", "delete account"}

  predicate Mentions(text: string, word: string) {
    exists i :: 0 <= i <= |text| && word <= text[i..]
  }

  predicate MentionsAny(text: string, words: set<string>) {
    exists w :: w in words && Mentions(text, w)
  }

  function Worse(a: Risk, b: Risk): Risk {
    if Rank(b) > Rank(a) then b else a
  }

  function Inferred(c: Context): Risk {
    if c.action == "scroll" then (if c.registered.Some? then c.registered.value else ReadOnly)
    else if MentionsAny(c.description, IRREVERSIBLE_WORDS) then Irreversible
    else if MentionsAny(c.description, SENSITIVE_WORDS) then Sensitive
    else if c.registered.Some? then c.registered.value
    else if c.action in {"type", "select"} then Reversible
    else ReadOnly
  }

  function InferRisk(c: Context): Risk {
    Worse(c.declared, Inferred(c))
  }

  function ExpectedOwner(p: Principal): string {
    match p case Human(id) => "human:" + id case Automation => "automation"
  }

  function Evaluate(p: EffectivePolicy, c: Context): Verdict {
    var risk := InferRisk(c);
    if c.owner != ExpectedOwner(c.principal) then Verdict(Deny, "control_owner_mismatch", risk)
    else if c.principal.Human? && c.mode != HumanControl then Verdict(Deny, "principal_mode_mismatch", risk)
    else if !c.originAllowed then Verdict(Deny, "origin_not_allowed", risk)
    else if !c.routeAllowed then Verdict(Deny, "route_not_allowed", risk)
    else if c.action !in p.allowedActions then Verdict(Deny, "action_not_allowed", risk)
    else if c.fieldClass.Some? && c.fieldClass.value in p.forbiddenClasses
      then Verdict(Deny, "field_classification_forbidden", risk)
    else if risk == Irreversible then Verdict(Deny, "irreversible_action_blocked", risk)
    else if Rank(risk) > Rank(p.maximumRisk) then Verdict(Deny, "risk_exceeds_policy", risk)
    else if risk == Sensitive then Verdict(RequireApproval, "sensitive_action_requires_approval", risk)
    else Verdict(Allow, "policy_allowed", risk)
  }

  /**
  The principal holds control in the right mode, the action stays on the lists, and nothing that speaks about
  its risk goes beyond reversible or the policy's ceiling: not the declaration, not the control's registration,
  and, unless it only scrolls, not a word of its description.
  */
  predicate Permitted(p: EffectivePolicy, c: Context) {
    && c.owner == ExpectedOwner(c.principal) && (c.principal.Human? ==> c.mode.HumanControl?)
    && c.originAllowed && c.routeAllowed && c.action in p.allowedActions
    && (c.fieldClass.Some? ==> c.fieldClass.value !in p.forbiddenClasses)
    && Rank(c.declared) <= Rank(Reversible) && Rank(c.declared) <= Rank(p.maximumRisk)
    && (c.action == "scroll"
        || (forall w <- SENSITIVE_WORDS + IRREVERSIBLE_WORDS :: !Mentions(c.description, w)))
    && (c.registered.Some? ==>
          Rank(c.registered.value) <= Rank(Reversible) && Rank(c.registered.value) <= Rank(p.maximumRisk))
    && (c.registered.None? && c.action in {"type", "select"} ==> Rank(Reversible) <= Rank(p.maximumRisk))
  }

  lemma AllowsExactly(p: EffectivePolicy, c: Context)
    ensures Evaluate(p, c).decision.Allow? <==> Permitted(p, c)
  {
    if forall w <- SENSITIVE_WORDS + IRREVERSIBLE_WORDS :: !Mentions(c.description, w) {
      assert !MentionsAny(c.description, SENSITIVE_WORDS) && !MentionsAny(c.description, IRREVERSIBLE_WORDS);
    } else {
      var w :| w in SENSITIVE_WORDS + IRREVERSIBLE_WORDS && Mentions(c.description, w);
      assert MentionsAny(c.description, SENSITIVE_WORDS) || MentionsAny(c.description, IRREVERSIBLE_WORDS);
    }
  }

  /** What was allowed is recorded with a risk no higher than reversible and no lower than declared. */
  lemma AllowedRisk(p: EffectivePolicy, c: Context)
    requires Evaluate(p, c).decision.Allow?
    ensures Rank(c.declared) <= Rank(Evaluate(p, c).risk) <= Rank(Reversible)
    ensures Rank(Evaluate(p, c).risk) <= Rank(p.maximumRisk)
  {
  }

  predicate SpeaksOf(c: Context, words: set<string>) {
    c.action != "scroll" && exists w :: w in words && Mentions(c.description, w)
  }

  /**
  The action stays on the lists and within the ceiling; it is declared, described or registered as sensitive, and
  nothing makes it irreversible. A description that speaks of risk outweighs the control's registration.
  */
  predicate Delicate(p: EffectivePolicy, c: Context) {
    && c.owner == ExpectedOwner(c.principal) && (c.principal.Human? ==> c.mode.HumanControl?)
    && c.originAllowed && c.routeAllowed && c.action in p.allowedActions
    && (c.fieldClass.Some? ==> c.fieldClass.value !in p.forbiddenClasses)
    && Rank(Sensitive) <= Rank(p.maximumRisk)
    && c.declared != Irreversible && !SpeaksOf(c, IRREVERSIBLE_WORDS)
    && (if SpeaksOf(c, SENSITIVE_WORDS) then true
        else if c.registered.Some? then
          c.registered.value != Irreversible && (c.registered.value == Sensitive || c.declared == Sensitive)
        else c.declared == Sensitive)
  }

  /** Approval is sought exactly for what is delicate; what is neither delicate nor permitted is denied. */
  lemma SeeksApprovalExactly(p: EffectivePolicy, c: Context)
    ensures Evaluate(p, c).decision.RequireApproval? <==> Delicate(p, c)
    ensures Evaluate(p, c).decision.RequireApproval? ==> Evaluate(p, c).reason == "sensitive_action_requires_approval"
    ensures Evaluate(p, c).decision.Deny? <==> !Delicate(p, c) && !Permitted(p, c)
  {
    assert c.action != "scroll" ==>
             (SpeaksOf(c, IRREVERSIBLE_WORDS) <==> MentionsAny(c.description, IRREVERSIBLE_WORDS));
    assert c.action != "scroll" ==> (SpeaksOf(c, SENSITIVE_WORDS) <==> MentionsAny(c.description, SENSITIVE_WORDS));
    AllowsExactly(p, c);
  }
}
