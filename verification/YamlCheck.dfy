/** The reviewer's verdict document: typed form, semantic rules and the Notion rule. */
module YamlCheck {
  import opened Base
  import opened State

  // An IEEE double, as far as range tests can tell its values apart.
  datatype Score = NaN | Infinite(negative: bool) | Finite(x: real)
  {
    /** IEEE comparison with a finite bound from below; false on NaN. */
    predicate AtLeast(bound: real)
    {
      match this
      case NaN => false
      case Infinite(negative) => !negative
      case Finite(x) => x >= bound
    }

    predicate AtMost(bound: real)
    {
      match this
      case NaN => false
      case Infinite(negative) => negative
      case Finite(x) => x <= bound
    }

    predicate LessThan(bound: real)
    {
      match this
      case NaN => false
      case Infinite(negative) => negative
      case Finite(x) => x < bound
    }
  }

  datatype Decision = Accept | Revise | Blocked | IrreconcilableDisagreement | PoisonedSession

  datatype ReviewerYaml = ReviewerYaml(
    qualityScore: Score,
    decision: Decision,
    rationale: string,
    contractSatisfied: bool,
    hardBlockersPresent: bool,
    notionRequirementsSatisfied: Option<bool>,
    feedbackForExecutor: seq<string>,
    blockingReason: Option<string>,
    irreconcilableReason: Option<string>,
    poisonedSessionReason: Option<string>)

  predicate MissingReason(r: Option<string>)
  {
    r.None? || IsBlank(r.value)
  }

  function ValidateReviewerYaml(y: ReviewerYaml): Result<()>
  {
    if !(y.qualityScore.AtLeast(0.0) && y.qualityScore.AtMost(10.0)) then
      Err(ArtifactContract("quality_score must be in [0, 10]"))
    else if IsBlank(y.rationale) then
      Err(ArtifactContract("rationale must not be empty"))
    else
      match y.decision
      case Accept =>
        if y.qualityScore.LessThan(MIN_ACCEPT_SCORE) then
          Err(ArtifactContract("decision=accept requires a higher quality_score"))
        else if !y.contractSatisfied then
          Err(ArtifactContract("decision=accept requires contract_satisfied=true"))
        else if y.hardBlockersPresent then
          Err(ArtifactContract("decision=accept requires hard_blockers_present=false"))
        else
          Ok(())
      case Revise =>
        if y.feedbackForExecutor == [] then
          Err(ArtifactContract("decision=revise requires non-empty feedback_for_executor"))
        else
          Ok(())
      case Blocked =>
        if MissingReason(y.blockingReason) then
          Err(ArtifactContract("decision=blocked requires non-empty blocking_reason"))
        else
          Ok(())
      case IrreconcilableDisagreement =>
        if MissingReason(y.irreconcilableReason) then
          Err(ArtifactContract("decision=irreconcilable_disagreement requires non-empty irreconcilable_reason"))
        else
          Ok(())
      case PoisonedSession =>
        if MissingReason(y.poisonedSessionReason) then
          Err(ArtifactContract("decision=poisoned_session requires non-empty poisoned_session_reason"))
        else
          Ok(())
  }

  // The text-to-document stage (pre-scan, then typed deserialization) as an unknown
  // partial function of the text.
  type Parser = string -> Option<ReviewerYaml>

  function ParseReviewerYaml(parse: Parser, raw: string): Result<ReviewerYaml>
  {
    match parse(raw)
    case None => Err(Yaml)
    case Some(y) =>
      match ValidateReviewerYaml(y)
      case Err(e) => Err(e)
      case Ok(_) => Ok(y)
  }

  function EnforceReviewerNotionPolicy(policy: NotionPolicy, y: ReviewerYaml): Result<()>
  {
    if policy != Required then
      Ok(())
    else if y.notionRequirementsSatisfied.None? then
      Err(ArtifactContract("notion_policy=required requires explicit notion_requirements_satisfied"))
    else if y.decision.Accept? && !y.notionRequirementsSatisfied.value then
      Err(ArtifactContract("decision=accept is forbidden with notion_requirements_satisfied=false"))
    else
      Ok(())
  }

  /** A document that passed parsing, validation and the Notion rule of this run. */
  predicate IsVerdict(parse: Parser, policy: NotionPolicy, raw: string, y: ReviewerYaml)
  {
    ParseReviewerYaml(parse, raw) == Ok(y) && EnforceReviewerNotionPolicy(policy, y).Ok?
  }

  predicate Said(reason: Option<string>)
  {
    reason.Some? && Inked(reason.value)
  }

  /** What a valid verdict of each decision promises, written without reference to the validator. */
  predicate Passes(policy: NotionPolicy, y: ReviewerYaml)
  {
    && y.qualityScore.Finite? && 0.0 <= y.qualityScore.x <= 10.0
    && Inked(y.rationale)
    && (policy == Required ==> y.notionRequirementsSatisfied.Some?)
    && match y.decision
       case Accept =>
         && y.qualityScore.x >= 8.0 && y.contractSatisfied && !y.hardBlockersPresent
         && (policy == Required ==> y.notionRequirementsSatisfied == Some(true))
       case Revise => y.feedbackForExecutor != []
       case Blocked => Said(y.blockingReason)
       case IrreconcilableDisagreement => Said(y.irreconcilableReason)
       case PoisonedSession => Said(y.poisonedSessionReason)
  }

  lemma ReasonIs(reason: Option<string>)
    ensures MissingReason(reason) <==> !Said(reason)
  {
    if reason.Some? {
      BlankIs(reason.value);
    }
  }

  lemma ValidExact(y: ReviewerYaml)
    ensures ValidateReviewerYaml(y).Ok? <==> Passes(Optional, y)
  {
    hide IsBlank, Inked, MissingReason, Said;
    BlankIs(y.rationale);
    ReasonIs(y.blockingReason);
    ReasonIs(y.irreconcilableReason);
    ReasonIs(y.poisonedSessionReason);
  }

  /** A document is a verdict exactly when it parses to one that passes, for every decision and policy. */
  lemma VerdictExact(parse: Parser, policy: NotionPolicy, raw: string, y: ReviewerYaml)
    ensures IsVerdict(parse, policy, raw, y) <==> parse(raw) == Some(y) && Passes(policy, y)
  {
    hide ValidateReviewerYaml, Inked, Said;
    ValidExact(y);
    if parse(raw).Some? {
      ValidExact(parse(raw).value);
    }
  }

  /** What an accepting verdict promises, written without reference to the validator. */
  predicate Acceptable(policy: NotionPolicy, y: ReviewerYaml)
  {
    && y.decision == Accept
    && y.qualityScore.Finite? && 8.0 <= y.qualityScore.x <= 10.0
    && !IsBlank(y.rationale)
    && y.contractSatisfied
    && !y.hardBlockersPresent
    && (policy == Required ==> y.notionRequirementsSatisfied == Some(true))
  }

  /** An accept verdict passes exactly when it is acceptable; NaN and infinite scores never do. */
  lemma AcceptVerdictExact(parse: Parser, policy: NotionPolicy, raw: string, y: ReviewerYaml)
    requires parse(raw) == Some(y) && y.decision == Accept
    ensures IsVerdict(parse, policy, raw, y) <==> Acceptable(policy, y)
  {
    hide IsVerdict, IsBlank, Inked;
    VerdictExact(parse, policy, raw, y);
    BlankIs(y.rationale);
  }

  /** Every non-accept verdict that passes carries what its decision needs for the next stage. */
  lemma NonAcceptVerdictCarriesReason(parse: Parser, policy: NotionPolicy, raw: string, y: ReviewerYaml)
    requires IsVerdict(parse, policy, raw, y)
    ensures y.decision == Revise ==> y.feedbackForExecutor != []
    ensures y.decision == Blocked ==> y.blockingReason.Some? && !IsBlank(y.blockingReason.value)
    ensures y.decision == IrreconcilableDisagreement ==>
              y.irreconcilableReason.Some? && !IsBlank(y.irreconcilableReason.value)
    ensures y.decision == PoisonedSession ==>
              y.poisonedSessionReason.Some? && !IsBlank(y.poisonedSessionReason.value)
  {
    assert ValidateReviewerYaml(y).Ok?;
  }
}
