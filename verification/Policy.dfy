/**
  The deterministic policy (services/policy-engine/src/index.ts), the roles it trusts
  (packages/auth/src/roles.ts) and the hash that binds an approval to what was evaluated
  (services/remediation-engine/src/index.ts, computeProposalHash).
 */
module Policy {
  import opened Wrappers
  import opened Json
  import opened Text

  // ---------------------------------------------------------------- roles

  datatype Role = Viewer | Developer | Sre | PlatformAdmin | Auditor

  datatype Permission =
    | IncidentRead | IncidentCreate | IncidentInvestigate
    | RemediationPropose | RemediationApproveLow | RemediationApproveHigh | RemediationExecute
    | PolicyRead | PolicyWrite | AuditRead | AuditExport | SloManage

  function RolePermissions(role: Role): seq<Permission> {
    match role
    case Viewer => [IncidentRead, PolicyRead]
    case Developer => [IncidentRead, IncidentInvestigate, RemediationPropose, PolicyRead]
    case Sre =>
      [IncidentRead, IncidentCreate, IncidentInvestigate, RemediationPropose, RemediationApproveLow,
       RemediationApproveHigh, RemediationExecute, PolicyRead, AuditRead, SloManage]
    case PlatformAdmin =>
      [IncidentRead, IncidentCreate, IncidentInvestigate, RemediationPropose, RemediationApproveLow,
       RemediationApproveHigh, RemediationExecute, PolicyRead, PolicyWrite, AuditRead, AuditExport, SloManage]
    case Auditor => [IncidentRead, PolicyRead, AuditRead, AuditExport]
  }

  predicate HasPermission(role: Role, permission: Permission) {
    permission in RolePermissions(role)
  }

  datatype Risk = LOW | MEDIUM | HIGH | CRITICAL

  predicate CanApproveRisk(role: Role, risk: Risk) {
    match risk
    case LOW => HasPermission(role, RemediationApproveLow)
    case MEDIUM => HasPermission(role, RemediationApproveHigh)
    case HIGH => HasPermission(role, RemediationApproveHigh)
    case CRITICAL => role == PlatformAdmin
  }

  function RiskRank(r: Risk): nat {
    match r case LOW => 1 case MEDIUM => 2 case HIGH => 3 case CRITICAL => 4
  }

  /** Two roles approve at all, one of them everything; authority only shrinks as the risk grows. */
  lemma ApprovalAuthority(role: Role, risk: Risk, lower: Risk)
    ensures CanApproveRisk(role, risk) <==> role == PlatformAdmin || (role == Sre && risk != CRITICAL)
    ensures CanApproveRisk(role, risk) && RiskRank(lower) <= RiskRank(risk) ==> CanApproveRisk(role, lower)
    ensures CanApproveRisk(role, risk) ==> HasPermission(role, RemediationExecute)
  {
    assert RolePermissions(Sre)[4] == RemediationApproveLow && RolePermissions(Sre)[5] == RemediationApproveHigh;
    assert RolePermissions(Sre)[6] == RemediationExecute && RolePermissions(PlatformAdmin)[6] == RemediationExecute;
    assert RolePermissions(PlatformAdmin)[4] == RemediationApproveLow
           && RolePermissions(PlatformAdmin)[5] == RemediationApproveHigh;
  }

  // ---------------------------------------------------------------- the capability registry

  datatype Action =
    | RollbackDeployment | RestartPod | ScaleWorkload | CordonNode | TrafficDrain | FeatureFlagDisable

  function ActionName(a: Action): string {
    match a
    case RollbackDeployment => "rollback_deployment"
    case RestartPod => "restart_pod"
    case ScaleWorkload => "scale_workload"
    case CordonNode => "cordon_node"
    case TrafficDrain => "traffic_drain"
    case FeatureFlagDisable => "feature_flag_disable"
  }

  /** Missing parameters are `Null`, a missing risk is `None`. */
  datatype Proposal = Proposal(
    action: Action,
    targetResource: string,
    parameters: Value,
    environment: string,
    risk: Option<Risk>)

  predicate Supported(a: Action) {
    a == RollbackDeployment || a == RestartPod || a == ScaleWorkload
  }

  const SUPPORTED_ENVIRONMENTS := ["production", "staging", "development"]

  /** `params.key`, for parameters that are an object; other values have no such member. */
  function Parameter(parameters: Value, key: string): Option<Value> {
    if parameters.Obj? then Lookup(parameters.fields, key) else None
  }

  predicate ValidateParameters(a: Action, parameters: Value) {
    match a
    case RollbackDeployment =>
      !Truthy(parameters)
      || (var r := Parameter(parameters, "targetRevision"); r.None? || r.value.Num?)
    case RestartPod => !Truthy(parameters) || Parameter(parameters, "replicas").None?
    case ScaleWorkload =>
      Truthy(parameters)
      && (var r := Parameter(parameters, "replicas");
          r.Some? && r.value.Num? && IntegerOf(r.value.token).Some? && 1 <= IntegerOf(r.value.token).value <= 20)
    case _ => false
  }

  function RequestedReplicas(parameters: Value): Option<int> {
    match Parameter(parameters, "replicas")
    case Some(Num(t)) => IntegerOf(t)
    case _ => None
  }

  predicate Production(environment: string) { Lower(environment) == "production" }

  function DeriveRisk(a: Action, environment: string, parameters: Value): Risk
    requires Supported(a)
  {
    match a
    case RollbackDeployment => if Production(environment) then HIGH else MEDIUM
    case RestartPod => if Production(environment) then MEDIUM else LOW
    case ScaleWorkload =>
      var n := RequestedReplicas(parameters);
      if n.Some? && (n.value > 10 || n.value <= 0) then CRITICAL
      else if Production(environment) then HIGH
      else MEDIUM
  }

  predicate RequiresHumanApproval(a: Action, risk: Risk, environment: string)
    requires Supported(a)
  {
    match a
    case RestartPod => if risk == CRITICAL || risk == HIGH then true else Production(environment)
    case _ => Production(environment) || risk == HIGH || risk == CRITICAL
  }

  function RequiredQuorum(a: Action, risk: Risk): nat
    requires Supported(a)
  {
    match a
    case RestartPod => 1
    case _ => if risk == CRITICAL then 2 else 1
  }

  // ---------------------------------------------------------------- the cascade of rules

  datatype Rule =
    | UnsupportedCapability | UnsupportedEnvironment | ParameterConstraintsFailed
    | CriticalMultiPartyQuorum | HighRiskHumanApprovalRequired | MediumRiskGate | LowRiskAutoExecution

  datatype Evaluation = Evaluation(
    allowed: bool,
    rule: Rule,
    riskClass: Risk,
    requiresHumanApproval: bool,
    requiredQuorum: nat)

  function EffectiveEnvironment(environment: string): string {
    Lower(if environment == "" then "production" else environment)
  }

  function EvaluateProposal(p: Proposal): Evaluation {
    if !Supported(p.action) then
      Evaluation(false, UnsupportedCapability, if p.risk.Some? then p.risk.value else CRITICAL, true, 2)
    else if EffectiveEnvironment(p.environment) !in SUPPORTED_ENVIRONMENTS then
      Evaluation(false, UnsupportedEnvironment, CRITICAL, true, 2)
    else if !ValidateParameters(p.action, p.parameters) then
      Evaluation(false, ParameterConstraintsFailed, CRITICAL, true, 2)
    else
      var canonical := DeriveRisk(p.action, p.environment, p.parameters);
      var proposalRank := if p.risk.Some? then RiskRank(p.risk.value) else 1;
      var effective := if proposalRank > RiskRank(canonical) then p.risk.value else canonical;
      var human := RequiresHumanApproval(p.action, effective, p.environment);
      var quorum := RequiredQuorum(p.action, effective);
      match effective
      case CRITICAL => Evaluation(true, CriticalMultiPartyQuorum, CRITICAL, true, quorum)
      case HIGH => Evaluation(true, HighRiskHumanApprovalRequired, HIGH, true, quorum)
      case MEDIUM => Evaluation(true, MediumRiskGate, MEDIUM, human, quorum)
      case LOW => Evaluation(true, LowRiskAutoExecution, LOW, false, 0)
  }

  // ---------------------------------------------------------------- what the cascade guarantees

  function ClaimRank(risk: Option<Risk>): nat { if risk.Some? then RiskRank(risk.value) else 0 }

  predicate OneOfThree(environment: string) {
    Lower(environment) == "production" || Lower(environment) == "staging" || Lower(environment) == "development"
  }

  /** Which parameters an action takes; missing and empty ones are `Null`, `false`, 0 and "". */
  predicate Acceptable(a: Action, parameters: Value) {
    match a
    case RollbackDeployment =>
      parameters.Obj? && Lookup(parameters.fields, "targetRevision").Some? ==>
        Lookup(parameters.fields, "targetRevision").value.Num?
    case RestartPod => parameters.Obj? ==> Lookup(parameters.fields, "replicas").None?
    case ScaleWorkload =>
      parameters.Obj?
      && exists n :: 1 <= n <= 20 && Lookup(parameters.fields, "replicas").Some?
                     && Lookup(parameters.fields, "replicas").value.Num?
                     && IntegerOf(Lookup(parameters.fields, "replicas").value.token) == Some(n)
    case _ => false
  }

  /**
    What the policy allows: the three actions, in the three environments or an unnamed one, a rollback to a numeric
    revision if to any, a restart without a replica count, a scaling to an integer from 1 to 20.
   */
  lemma AllowedIff(p: Proposal)
    ensures EvaluateProposal(p).allowed
            <==> (p.environment == "" || OneOfThree(p.environment)) && Acceptable(p.action, p.parameters)
  {
    hide Lower, IntegerOf;
    LowerProduction();
    assert SUPPORTED_ENVIRONMENTS[0] == "production" && SUPPORTED_ENVIRONMENTS[1] == "staging"
           && SUPPORTED_ENVIRONMENTS[2] == "development";
  }

  /**
    The claimed risk is advisory and can only raise. Whether a proposal is allowed does not depend on it; and a higher
    claim never lowers the effective risk, the quorum, or the demand for a human, while the effective risk stays one of
    the claim and the risk found without a claim, and below neither.
   */
  lemma {:induction false} ClaimOnlyRaises(p: Proposal, lower: Option<Risk>, higher: Option<Risk>)
    requires ClaimRank(lower) <= ClaimRank(higher)
    ensures var e, f := EvaluateProposal(p.(risk := lower)), EvaluateProposal(p.(risk := higher));
            var bare := EvaluateProposal(p.(risk := None));
            e.allowed == f.allowed == bare.allowed
            && (f.allowed ==>
                  RiskRank(e.riskClass) <= RiskRank(f.riskClass)
                  && e.requiredQuorum <= f.requiredQuorum
                  && (e.requiresHumanApproval ==> f.requiresHumanApproval)
                  && (f.riskClass == bare.riskClass || higher == Some(f.riskClass))
                  && RiskRank(f.riskClass) >= RiskRank(bare.riskClass) && RiskRank(f.riskClass) >= ClaimRank(higher))
  {
    hide Lower, ValidateParameters;
  }

  /** The risk without a claim: by action and environment, and CRITICAL beyond ten replicas. */
  lemma DerivedRisk(p: Proposal)
    requires EvaluateProposal(p).allowed && p.risk.None?
    ensures var production := Lower(p.environment) == "production";
            EvaluateProposal(p).riskClass ==
            (match p.action
             case RestartPod => if production then MEDIUM else LOW
             case ScaleWorkload =>
               if RequestedReplicas(p.parameters).value > 10 then CRITICAL else if production then HIGH else MEDIUM
             case _ => if production then HIGH else MEDIUM)
  {
    hide Lower, IntegerOf;
  }

  /** What else an allowed proposal is told: the rule and the number of approvers that go with its risk. */
  lemma AllowedMeans(p: Proposal)
    requires EvaluateProposal(p).allowed
    ensures var e := EvaluateProposal(p);
            (e.riskClass == LOW <==> e.rule == LowRiskAutoExecution)
            && (e.riskClass == MEDIUM <==> e.rule == MediumRiskGate)
            && (e.riskClass == HIGH <==> e.rule == HighRiskHumanApprovalRequired)
            && (e.riskClass == CRITICAL <==> e.rule == CriticalMultiPartyQuorum)
            && e.requiredQuorum == (if e.riskClass == LOW then 0
                                    else if e.riskClass == CRITICAL && p.action != RestartPod then 2
                                    else 1)
            && (e.riskClass == LOW ==> !e.requiresHumanApproval)
            && (e.riskClass == HIGH || e.riskClass == CRITICAL ==> e.requiresHumanApproval)
  {
    hide Lower, ValidateParameters;
  }

  /** What is denied, and as what: an unknown action before an unknown environment before wrong parameters. */
  lemma DeniedMeans(p: Proposal)
    requires !EvaluateProposal(p).allowed
    ensures var e := EvaluateProposal(p);
            var supported := p.action in {RollbackDeployment, RestartPod, ScaleWorkload};
            var environment := p.environment == "" || OneOfThree(p.environment);
            e.requiresHumanApproval && e.requiredQuorum == 2
            && (e.rule == UnsupportedCapability <==> !supported)
            && (e.rule == UnsupportedEnvironment <==> supported && !environment)
            && (e.rule == ParameterConstraintsFailed <==> supported && environment)
            && e.riskClass == if supported || p.risk.None? then CRITICAL else p.risk.value
  {
    hide Lower, ValidateParameters;
    LowerProduction();
    assert SUPPORTED_ENVIRONMENTS[0] == "production" && SUPPORTED_ENVIRONMENTS[1] == "staging"
           && SUPPORTED_ENVIRONMENTS[2] == "development";
  }

  /** The derived risk is a floor: what the action, the environment and the replica count alone demand. */
  lemma RiskFloor(p: Proposal)
    requires EvaluateProposal(p).allowed
    ensures var r := RiskRank(EvaluateProposal(p).riskClass);
            (p.action != RestartPod ==> r >= RiskRank(MEDIUM))
            && (Production(p.environment) ==> r >= RiskRank(if p.action == RestartPod then MEDIUM else HIGH))
            && (p.action == ScaleWorkload && RequestedReplicas(p.parameters).value > 10 ==> r == RiskRank(CRITICAL))
  {
    hide Lower, IntegerOf;
  }

  /** Two approvers are asked exactly for CRITICAL actions other than a pod restart. */
  lemma QuorumOfTwo(p: Proposal)
    requires EvaluateProposal(p).allowed
    ensures EvaluateProposal(p).requiredQuorum >= 2
            <==> EvaluateProposal(p).riskClass == CRITICAL && p.action != RestartPod
    ensures EvaluateProposal(p).requiredQuorum == 0 <==> EvaluateProposal(p).riskClass == LOW
  {
    hide Lower, ValidateParameters;
  }

  lemma LowerProduction()
    ensures Lower("production") == "production" && Lower("") == ""
    ensures "production" in SUPPORTED_ENVIRONMENTS
  {
    var p := "production";
    assert forall i :: 0 <= i < |p| ==> LowerChar(p[i]) == p[i];
    LowerFixed(p);
    assert SUPPORTED_ENVIRONMENTS[0] == "production";
  }

  lemma {:induction false} LowerFixed(s: string)
    requires forall i :: 0 <= i < |s| ==> LowerChar(s[i]) == s[i]
    ensures Lower(s) == s
  {
    if s != "" {
      LowerFixed(s[1..]);
      assert s == [s[0]] + s[1..];
    }
  }

  /**
    The production gate. Wherever the allow-list takes a proposal to be for production, a human
    must approve it, except when the environment is the empty string: the allow-list reads that as
    production but the derivation of the risk does not, so no approval is asked for a proposal below HIGH.
   */
  lemma {:induction false} ProductionGate(p: Proposal)
    requires EvaluateProposal(p).allowed && EffectiveEnvironment(p.environment) == "production"
    ensures EvaluateProposal(p).requiresHumanApproval
            <==> p.environment != "" || RiskRank(EvaluateProposal(p).riskClass) >= RiskRank(HIGH)
  {
    hide Lower, ValidateParameters;
    LowerProduction();
    if p.environment == "" {
      assert !Production(p.environment);
    } else {
      assert Production(p.environment);
    }
  }

  /** The gap is inhabited: a rollback in what the allow-list takes for production, for which no approval is asked. */
  lemma UngatedProductionRollback(target: string) returns (p: Proposal)
    ensures p.action == RollbackDeployment && p.targetResource == target
    ensures EffectiveEnvironment(p.environment) == "production"
    ensures EvaluateProposal(p).allowed && !EvaluateProposal(p).requiresHumanApproval
  {
    hide Lower;
    LowerProduction();
    p := Proposal(RollbackDeployment, target, Null, "", None);
  }

  /**
    For what no approval is asked: nothing named production, nothing claimed above MEDIUM, nothing scaled beyond
    ten replicas.
   */
  lemma {:induction false} UngatedIff(p: Proposal)
    requires EvaluateProposal(p).allowed
    ensures !EvaluateProposal(p).requiresHumanApproval
            <==> !Production(p.environment)
                 && RiskRank(if p.risk.Some? then p.risk.value else LOW) <= RiskRank(MEDIUM)
                 && (p.action == ScaleWorkload ==> 1 <= RequestedReplicas(p.parameters).value <= 10)
  {
    hide Lower;
  }

  /** approveProposal writes the evaluated risk back into the proposal; evaluating again changes nothing. */
  lemma EvaluationStable(p: Proposal)
    requires EvaluateProposal(p).allowed
    ensures EvaluateProposal(p.(risk := Some(EvaluateProposal(p).riskClass))) == EvaluateProposal(p)
  {
    hide Lower, ValidateParameters;
  }

  // ---------------------------------------------------------------- the proposal hash

  const POLICY_VERSION := "v2.1-deterministic"

  function ParametersOrEmpty(v: Value): Value {
    if Truthy(v) then v else Obj([])
  }

  function HashedContent(p: Proposal): Value {
    Obj([Field("action", Str(ActionName(p.action))),
         Field("targetResource", Str(p.targetResource)),
         Field("parameters", ParametersOrEmpty(p.parameters)),
         Field("environment", Str(p.environment)),
         Field("policyVersion", Str(POLICY_VERSION))])
  }

  function ComputeProposalHash(h: Hash, p: Proposal): string {
    h(Print(HashedContent(p)))
  }

  lemma ActionNamesDistinct(a: Action, b: Action)
    requires ActionName(a) == ActionName(b)
    ensures a == b
  {
    assert ActionName(a)[0] == ActionName(b)[0] && |ActionName(a)| == |ActionName(b)|
           && ActionName(a)[2] == ActionName(b)[2];
  }

  lemma HashedContentValid(p: Proposal)
    requires Valid(p.parameters)
    ensures Valid(HashedContent(p))
  {
    var f := HashedContent(p).fields;
    assert f[0].key[0] == 'a' && f[1].key[0] == 't' && f[2].key[0] == 'p' && f[2].key[1] == 'a' && f[3].key[0] == 'e'
           && f[4].key[0] == 'p' && f[4].key[1] == 'o';
    assert f[2].val == ParametersOrEmpty(p.parameters);
  }

  /** A hash stands for one action on one target with one set of parameters in one environment. */
  lemma {:induction false} ProposalHashBinds(h: Hash, p: Proposal, q: Proposal)
    requires Injective(h) && Valid(p.parameters) && Valid(q.parameters)
    ensures ComputeProposalHash(h, p) == ComputeProposalHash(h, q)
            <==> p.action == q.action && p.targetResource == q.targetResource && p.environment == q.environment
                 && ParametersOrEmpty(p.parameters) == ParametersOrEmpty(q.parameters)
  {
    if ComputeProposalHash(h, p) == ComputeProposalHash(h, q) {
      HashedContentValid(p);
      HashedContentValid(q);
      PrintInjective(HashedContent(p), HashedContent(q));
      var f, g := HashedContent(p).fields, HashedContent(q).fields;
      assert f[0] == g[0] && f[1] == g[1] && f[2] == g[2] && f[3] == g[3];
      ActionNamesDistinct(p.action, q.action);
    }
  }

  /** So proposals with equal hashes and equal claimed risk are judged alike. */
  lemma {:induction false} EqualHashEqualVerdict(h: Hash, p: Proposal, q: Proposal)
    requires Injective(h) && Valid(p.parameters) && Valid(q.parameters)
    requires ComputeProposalHash(h, p) == ComputeProposalHash(h, q) && p.risk == q.risk
    ensures EvaluateProposal(p) == EvaluateProposal(q)
  {
    hide Lower, IntegerOf;
    ProposalHashBinds(h, p, q);
  }
}
