/**
 * Decisions and the gates they pass: `validate_next_decision`, `AgentPolicy.evaluate`
 * (app/ops_agent/agent_core.py) and the checks of `ToolRegistry` (app/ops_agent/tooling.py).
 */
module AgentDecision {
  import opened Common
  import opened ContextMemory

  datatype StepType = CallTool | Complete | AskHuman | Stop

  /** The parts of a diagnosis the loop looks at. */
  datatype Diagnosis = Diagnosis(code: string, citations: seq<Id>)

  datatype Decision = Decision(
    kind: StepType,
    tool: Option<string>,
    arguments: Content,
    summary: string,
    evidenceIds: seq<Id>,
    stopReason: Option<string>,
    diagnosis: Option<Diagnosis>)

  datatype Error =
    | SchemaInvalid | UnknownEvidenceReference | ExecutableContentRejected | SemanticsInvalid
    | ToolNotRegistered | InsufficientEvidence | EvidenceMismatch | StopReasonRequired
    | ModelConfigInvalid | ModelBudgetExhausted

  /** The code an error is recorded under. */
  function CodeOf(e: Error): string {
    match e
    case SchemaInvalid => "DECISION_SCHEMA_INVALID"
    case UnknownEvidenceReference => "UNKNOWN_EVIDENCE_REFERENCE"
    case ExecutableContentRejected => "EXECUTABLE_CONTENT_REJECTED"
    case SemanticsInvalid => "DECISION_SEMANTICS_INVALID"
    case ToolNotRegistered => "TOOL_NOT_REGISTERED"
    case InsufficientEvidence => "INSUFFICIENT_EVIDENCE"
    case EvidenceMismatch => "EVIDENCE_MISMATCH"
    case StopReasonRequired => "STOP_REASON_REQUIRED"
    case ModelConfigInvalid => "MODEL_CONFIG_INVALID"
    case ModelBudgetExhausted => "MODEL_BUDGET_EXHAUSTED"
  }

  /** A registered tool; its handler is an oracle. */
  datatype Tool = Tool(
    readOnly: bool,
    requiresApproval: bool,
    clusters: set<string>,
    namespaces: set<string>,
    schema: Content -> bool)

  type Registry = map<string, Tool>

  predicate DistinctIds(ids: seq<Id>) { forall i, j | 0 <= i < j < |ids| :: ids[i] != ids[j] }

  const DIAGNOSIS_CODES := {
    "CRASH_LOOP", "OOM_KILLED", "IMAGE_PULL_ERROR", "POD_PENDING", "POD_NOT_READY", "READINESS_FAILURE",
    "DEPLOYMENT_UNAVAILABLE", "RESOURCE_PRESSURE", "HTTP_5XX", "REDIS_UNAVAILABLE", "UNKNOWN"}

  /** NEXT_DECISION_SCHEMA on the fields of the model. */
  predicate Conforms(d: Decision) {
    && 1 <= |d.summary| <= 500 && DistinctIds(d.evidenceIds)
    && (d.tool.Some? ==> |d.tool.value| <= 100) && (d.stopReason.Some? ==> |d.stopReason.value| <= 100)
    && (d.diagnosis.Some? ==> d.diagnosis.value.code in DIAGNOSIS_CODES && DistinctIds(d.diagnosis.value.citations))
  }

  /** The JSON Schema check and the search for executable text. */
  datatype TextRules = TextRules(schemaValid: Decision -> bool, executable: Decision -> bool)

  function ToSet(ids: seq<Id>): set<Id> { set id | id in ids }

  predicate Blank(text: Option<string>) { text.None? || text.value == "" }

  /** `validate_next_decision`: None when the decision is accepted. */
  function Validate(rules: TextRules, registry: Registry, d: Decision, visible: set<Id>): Option<Error> {
    if !rules.schemaValid(d) then Some(SchemaInvalid)
    else if !(ToSet(d.evidenceIds) <= visible) then Some(UnknownEvidenceReference)
    else if rules.executable(d) then Some(ExecutableContentRejected)
    else match d.kind
      case CallTool =>
        if Blank(d.tool) || d.diagnosis.Some? || d.stopReason.Some? then Some(SemanticsInvalid)
        else if d.tool.value !in registry then Some(ToolNotRegistered)
        else None
      case Complete =>
        if d.tool.Some? || d.arguments != map[] || d.diagnosis.None? then Some(SemanticsInvalid)
        else if d.evidenceIds == [] then Some(InsufficientEvidence)
        else if ToSet(d.diagnosis.value.citations) != ToSet(d.evidenceIds) then Some(EvidenceMismatch)
        else None
      case _ =>
        if d.tool.Some? || d.arguments != map[] || d.diagnosis.Some? then Some(SemanticsInvalid)
        else if Blank(d.stopReason) then Some(StopReasonRequired)
        else None
  }

  // ---- Policy ----

  const SYSTEM_NAMESPACES := {"kube-system", "kube-public", "kube-node-lease"}

  /** The immutable target columns of the incident. */
  datatype Target = Target(cluster: string, namespace: string, resourceName: string)

  /** A tool name with its arguments; the fingerprint hash is injective on these. */
  datatype CallPrint = CallPrint(tool: string, arguments: Content)

  datatype Policy = Allow | Deny(reason: string) | AskOperator(reason: string)

  const NAME_KEYS := ["pod_name", "resource_name", "deployment_name", "workload_name"]

  function UidArgument(arguments: Content): Json {
    if "resource_uid" in arguments then arguments["resource_uid"] else JNull
  }

  /** `AgentPolicy.evaluate` for an L2 run and a registered tool. */
  function Evaluate(
    tool: Tool, target: Target, boundUid: Json, used: int, budget: int,
    name: string, arguments: Content, previous: set<CallPrint>): Policy
  {
    var namespace := Get(arguments, "namespace");
    var uid := UidArgument(arguments);
    if !tool.readOnly || tool.requiresApproval then Deny("WRITE_TOOL_DENIED")
    else if Get(arguments, "cluster") != Some(JStr(target.cluster)) || target.cluster !in tool.clusters then
      Deny("CLUSTER_SCOPE_DENIED")
    else if exists n | n in SYSTEM_NAMESPACES :: namespace == Some(JStr(n)) then Deny("SYSTEM_NAMESPACE_DENIED")
    else if namespace != Some(JStr(target.namespace)) || target.namespace !in tool.namespaces then
      Deny("NAMESPACE_SCOPE_DENIED")
    else if exists key | key in NAME_KEYS :: Has(arguments, key) && arguments[key] != JStr(target.resourceName) then
      AskOperator("INCIDENT_TARGET_MISMATCH")
    else if Truthy(uid) && !Truthy(boundUid) then AskOperator("INCIDENT_UID_UNBOUND")
    else if Truthy(uid) && uid != boundUid then AskOperator("INCIDENT_UID_MISMATCH")
    else if used >= budget then Deny("TOOL_BUDGET_EXHAUSTED")
    else if CallPrint(name, arguments) in previous then Deny("DUPLICATE_TOOL_CALL")
    else Allow
  }

  /** A call confined to the incident's own target. */
  predicate InScope(tool: Tool, target: Target, arguments: Content) {
    && tool.readOnly && !tool.requiresApproval
    && Get(arguments, "cluster") == Some(JStr(target.cluster)) && target.cluster in tool.clusters
    && Get(arguments, "namespace") == Some(JStr(target.namespace)) && target.namespace in tool.namespaces
    && target.namespace !in SYSTEM_NAMESPACES
    && forall key | key in NAME_KEYS :: Has(arguments, key) ==> arguments[key] == JStr(target.resourceName)
  }

  // ---- The registry's own checks at the execution boundary ----

  datatype InvokeError =
    | NotRegistered | WriteToolDenied | InvalidArguments | ClusterScopeDenied | NamespaceScopeDenied

  /** The checks of `ToolRegistry.invoke` before the handler; None when the handler is reached. */
  function InvokeChecks(registry: Registry, name: string, arguments: Content): Option<InvokeError> {
    if name !in registry then Some(NotRegistered)
    else
      var tool := registry[name];
      if !tool.readOnly || tool.requiresApproval then Some(WriteToolDenied)
      else if !tool.schema(arguments) then Some(InvalidArguments)
      else if !(exists c | c in tool.clusters :: Get(arguments, "cluster") == Some(JStr(c))) then
        Some(ClusterScopeDenied)
      else if (exists n | n in SYSTEM_NAMESPACES :: Get(arguments, "namespace") == Some(JStr(n)))
           || !(exists n | n in tool.namespaces :: Get(arguments, "namespace") == Some(JStr(n))) then
        Some(NamespaceScopeDenied)
      else None
  }

  // ---- Exactly what is accepted ----

  /** The fields of an accepted decision, by kind. */
  predicate Consistent(registry: Registry, d: Decision) {
    match d.kind
    case CallTool => !Blank(d.tool) && d.tool.value in registry && d.diagnosis.None? && d.stopReason.None?
    case Complete =>
      && d.tool.None? && d.arguments == map[] && d.evidenceIds != []
      && d.diagnosis.Some? && ToSet(d.diagnosis.value.citations) == ToSet(d.evidenceIds)
    case _ => d.tool.None? && d.arguments == map[] && d.diagnosis.None? && !Blank(d.stopReason)
  }

  /** A decision is accepted exactly when it is well-formed, harmless, consistent and cites visible evidence only. */
  lemma AcceptedIffConsistent(rules: TextRules, registry: Registry, d: Decision, visible: set<Id>)
    ensures Validate(rules, registry, d, visible).None? <==>
              && rules.schemaValid(d) && !rules.executable(d)
              && (forall id | id in d.evidenceIds :: id in visible)
              && Consistent(registry, d)
  {
    if forall id | id in d.evidenceIds :: id in visible {
      assert ToSet(d.evidenceIds) <= visible;
    } else {
      var id :| id in d.evidenceIds && id !in visible;
      assert id in ToSet(d.evidenceIds);
    }
  }

  /** Which error a rejected decision is reported under: schema, citations, executable text, then its kind. */
  lemma RejectionReasons(rules: TextRules, registry: Registry, d: Decision, visible: set<Id>)
    ensures var error := Validate(rules, registry, d, visible);
            var cited := forall id | id in d.evidenceIds :: id in visible;
            var sound := rules.schemaValid(d) && cited && !rules.executable(d);
            && (!rules.schemaValid(d) ==> error == Some(SchemaInvalid))
            && (rules.schemaValid(d) && !cited ==> error == Some(UnknownEvidenceReference))
            && (rules.schemaValid(d) && cited && rules.executable(d) ==> error == Some(ExecutableContentRejected))
            && (sound && d.kind.CallTool? && d.tool.Some? && d.diagnosis.None? && d.stopReason.None? ==>
                  (d.tool.value != "" && d.tool.value !in registry ==> error == Some(ToolNotRegistered)))
            && (sound && d.kind.Complete? && d.tool.None? && d.arguments == map[] && d.diagnosis.Some? ==>
                  && (d.evidenceIds == [] ==> error == Some(InsufficientEvidence))
                  && (d.evidenceIds != [] && ToSet(d.diagnosis.value.citations) != ToSet(d.evidenceIds) ==>
                        error == Some(EvidenceMismatch)))
            && (sound && (d.kind.AskHuman? || d.kind.Stop?) && d.tool.None? && d.arguments == map[] && d.diagnosis.None? ==>
                  (d.stopReason in {None, Some("")} ==> error == Some(StopReasonRequired)))
            && (sound && error.Some? ==>
                  error.value in {ToolNotRegistered, InsufficientEvidence, EvidenceMismatch, StopReasonRequired,
                                  SemanticsInvalid})
  {
    AcceptedIffConsistent(rules, registry, d, visible);
    if forall id | id in d.evidenceIds :: id in visible {
      assert ToSet(d.evidenceIds) <= visible;
    } else {
      var id :| id in d.evidenceIds && id !in visible;
      assert id in ToSet(d.evidenceIds);
    }
  }

  /** A uid named by the arguments is the one bound to the run. */
  predicate OnBoundUid(boundUid: Json, arguments: Content) {
    Truthy(UidArgument(arguments)) ==> Truthy(boundUid) && UidArgument(arguments) == boundUid
  }

  /** Read-only and in the incident's cluster and namespace, whatever resource it names. */
  predicate InNamespace(tool: Tool, target: Target, arguments: Content) {
    && tool.readOnly && !tool.requiresApproval
    && Get(arguments, "cluster") == Some(JStr(target.cluster)) && target.cluster in tool.clusters
    && Get(arguments, "namespace") == Some(JStr(target.namespace)) && target.namespace in tool.namespaces
    && target.namespace !in SYSTEM_NAMESPACES
  }

  /**
   * The policy exactly: a call is allowed if and only if it is in scope, on the bound uid, within
   * budget and new; an operator is asked if and only if it is in the namespace but names another
   * resource or uid; everything else is denied.
   */
  lemma PolicyExactly(
    tool: Tool, target: Target, boundUid: Json, used: int, budget: int,
    name: string, arguments: Content, previous: set<CallPrint>)
    ensures var policy := Evaluate(tool, target, boundUid, used, budget, name, arguments, previous);
            && (policy.Allow? <==>
                  && InScope(tool, target, arguments) && OnBoundUid(boundUid, arguments)
                  && used < budget && CallPrint(name, arguments) !in previous)
            && (policy.AskOperator? <==>
                  && InNamespace(tool, target, arguments)
                  && !(InScope(tool, target, arguments) && OnBoundUid(boundUid, arguments)))
  {
  }

  /** Which check a refused call is reported under: the first one, in this order. */
  lemma RefusalReasons(
    tool: Tool, target: Target, boundUid: Json, used: int, budget: int,
    name: string, arguments: Content, previous: set<CallPrint>)
    ensures var policy := Evaluate(tool, target, boundUid, used, budget, name, arguments, previous);
            var cluster := Get(arguments, "cluster") == Some(JStr(target.cluster)) && target.cluster in tool.clusters;
            var here := Get(arguments, "namespace") == Some(JStr(target.namespace)) && target.namespace in tool.namespaces;
            var system := exists n | n in SYSTEM_NAMESPACES :: Get(arguments, "namespace") == Some(JStr(n));
            var reached := tool.readOnly && !tool.requiresApproval && cluster && !system && here;
            var named := forall key | key in NAME_KEYS ::
                           Has(arguments, key) ==> arguments[key] == JStr(target.resourceName);
            var asked := Truthy(UidArgument(arguments));
            && (!tool.readOnly || tool.requiresApproval ==> policy == Deny("WRITE_TOOL_DENIED"))
            && (tool.readOnly && !tool.requiresApproval && !cluster ==> policy == Deny("CLUSTER_SCOPE_DENIED"))
            && (tool.readOnly && !tool.requiresApproval && cluster && system ==> policy == Deny("SYSTEM_NAMESPACE_DENIED"))
            && (tool.readOnly && !tool.requiresApproval && cluster && !system && !here ==>
                  policy == Deny("NAMESPACE_SCOPE_DENIED"))
            && (reached && !named ==> policy == AskOperator("INCIDENT_TARGET_MISMATCH"))
            && (reached && named && asked && !Truthy(boundUid) ==> policy == AskOperator("INCIDENT_UID_UNBOUND"))
            && (reached && named && asked && Truthy(boundUid) && UidArgument(arguments) != boundUid ==>
                  policy == AskOperator("INCIDENT_UID_MISMATCH"))
            && (reached && named && OnBoundUid(boundUid, arguments) && budget <= used ==>
                  policy == Deny("TOOL_BUDGET_EXHAUSTED"))
            && (reached && named && OnBoundUid(boundUid, arguments) && used < budget ==>
                  (CallPrint(name, arguments) in previous ==> policy == Deny("DUPLICATE_TOOL_CALL")))
  {
  }

  /** The two gates agree: at the registry an allowed call can fail no check but the argument schema. */
  lemma AllowedCallPassesRegistry(
    registry: Registry, target: Target, boundUid: Json, used: int, budget: int,
    name: string, arguments: Content, previous: set<CallPrint>)
    requires name in registry
    requires Evaluate(registry[name], target, boundUid, used, budget, name, arguments, previous).Allow?
    ensures InvokeChecks(registry, name, arguments) ==
              if registry[name].schema(arguments) then None else Some(InvalidArguments)
  {
    PolicyExactly(registry[name], target, boundUid, used, budget, name, arguments, previous);
    assert target.namespace !in SYSTEM_NAMESPACES;
  }

  /** The registry object: only `Register` changes it. */
  class ToolRegistry {
    var tools: Registry

    ghost predicate Valid()
      reads this
    {
      forall name | name in tools :: tools[name].readOnly
    }

    constructor ()
      ensures Valid() && tools == map[]
    {
      tools := map[];
    }

    /** `register`: refuses write tools and repeated names, and never replaces a definition. */
    method Register(name: string, tool: Tool) returns (ok: bool)
      requires Valid()
      modifies this
      ensures Valid()
      ensures ok <==> tool.readOnly && name !in old(tools)
      ensures tools == if ok then old(tools)[name := tool] else old(tools)
    {
      if !tool.readOnly || name in tools {
        return false;
      }
      tools := tools[name := tool];
      return true;
    }
  }
}
