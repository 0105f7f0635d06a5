/**
 * The rules reasoner (`RuleReasoner.decide` in app/ops_agent/agent_core.py, with the crash diagnosis
 * of app/ops_agent/diagnosis.py) and the run it makes when its tools answer.
 */
module RuleReasoner {
  import opened Common
  import opened ContextMemory
  import opened AgentDecision
  import opened AgentDatabase

  datatype Kind = Pod | Workload | Other

  /**
   * What `decide` reads of the incident and the registry; `redisDown` is the alert and metric check of
   * the diagnosis, `wording` gives the fixed sentence a decision is summarised with.
   */
  datatype Scene = Scene(
    target: Target,
    kind: Kind,
    resourceKind: string,
    redis: bool,
    metric: Option<string>,
    registry: Registry,
    redisDown: seq<Evidence> -> bool,
    wording: string -> string)

  const QUERY := "query_prometheus"
  const LOGS := "get_previous_logs"
  const EVENTS := "get_kubernetes_events"
  const LIMITS := "get_resource_limits"
  const WORKLOAD := "get_workload_status"
  const RELATED := "list_related_pods"

  // ---- Facts of a pod status ----

  function Field(item: Json, key: string): Json {
    if item.JObj? && key in item.fields then item.fields[key] else JNull
  }

  function IntOf(v: Json): int { if v.JNum? then v.n else 0 }

  function Containers(content: Content): seq<Json> {
    if Has(content, "containers") && content["containers"].JArr? then content["containers"].items else []
  }

  predicate HasReason(containers: seq<Json>, reason: string) {
    exists item | item in containers ::
      Field(item, "waiting_reason") == JStr(reason) || Field(item, "last_terminated_reason") == JStr(reason)
  }

  predicate Restarted(containers: seq<Json>) {
    exists item | item in containers ::
      IntOf(Field(item, "restart_count")) > 0 && IntOf(Field(item, "last_exit_code")) != 0
  }

  predicate Crashed(containers: seq<Json>) { HasReason(containers, "CrashLoopBackOff") || Restarted(containers) }

  /** The narrower test of the diagnosis. */
  predicate CrashLoop(containers: seq<Json>) {
    Restarted(containers)
    || exists item | item in containers :: Field(item, "waiting_reason") == JStr("CrashLoopBackOff")
  }

  predicate NotReady(content: Content) { Get(content, "ready") == Some(JBool(false)) }

  // ---- Evidence by type ----

  predicate HasType(evidence: seq<Evidence>, kind: EvidenceType) { exists e | e in evidence :: e.kind == kind }

  function Last(evidence: seq<Evidence>, kind: EvidenceType): (e: Evidence)
    requires HasType(evidence, kind)
    ensures e in evidence && e.kind == kind
  {
    var last := evidence[|evidence| - 1];
    if last.kind == kind then last else Last(evidence[..|evidence| - 1], kind)
  }

  function IdsOf(evidence: seq<Evidence>, kinds: set<EvidenceType>): (ids: seq<Id>)
    ensures forall id | id in ids :: exists e | e in evidence :: e.id == id && e.kind in kinds
    ensures forall e | e in evidence && e.kind in kinds :: e.id in ids
  {
    if evidence == [] then []
    else (if evidence[0].kind in kinds then [evidence[0].id] else []) + IdsOf(evidence[1..], kinds)
  }

  // ---- Decisions ----

  function Call(scene: Scene, topic: string, tool: string, arguments: Content, ids: seq<Id>): Decision {
    Decision(CallTool, Some(tool), arguments, scene.wording(topic), ids, None, None)
  }

  function Diagnose(scene: Scene, topic: string, code: string, ids: seq<Id>): Decision {
    Decision(Complete, None, map[], scene.wording(topic), ids, None, Some(Diagnosis(code, ids)))
  }

  function Base(scene: Scene): Content {
    map["cluster" := JStr(scene.target.cluster), "namespace" := JStr(scene.target.namespace)]
  }

  function OnPod(scene: Scene): Content { Base(scene)["pod_name" := JStr(scene.target.resourceName)] }

  function Query(scene: Scene, name: string, ids: seq<Id>): Decision {
    Call(scene, name, QUERY,
         Base(scene)["query_name" := JStr(name)]["resource_name" := JStr(scene.target.resourceName)], ids)
  }

  /** The last evidence of a type, to be cited. */
  function LastIds(evidence: seq<Evidence>, kind: EvidenceType): seq<Id> {
    if HasType(evidence, kind) then [Last(evidence, kind).id] else []
  }

  /** `RuleDiagnosis.diagnose`, for evidence with a pod status: its code and citations. */
  function CrashVerdict(scene: Scene, evidence: seq<Evidence>, pod: Evidence): Diagnosis {
    if CrashLoop(Containers(pod.content)) then
      Diagnosis("CRASH_LOOP", IdsOf(evidence, {PodStatus, PreviousLogs, K8sEvents}))
    else if NotReady(pod.content) then Diagnosis("POD_NOT_READY", [pod.id])
    else if scene.redisDown(evidence) then
      Diagnosis("REDIS_UNAVAILABLE", LastIds(evidence, PrometheusMetrics) + LastIds(evidence, AlertPayload))
    else Diagnosis("UNKNOWN", LastIds(evidence, AlertPayload))
  }

  /** The pod's state as `decide` reads it. */
  datatype PodState = PodState(crash: bool, oom: bool, imagePull: bool, notReady: bool)

  function StateOf(pod: Evidence): PodState {
    var containers := Containers(pod.content);
    PodState(Crashed(containers), HasReason(containers, "OOMKilled"),
             HasReason(containers, "ImagePullBackOff") || HasReason(containers, "ErrImagePull"), NotReady(pod.content))
  }

  /** What is still read about the pod. */
  function PodCall(scene: Scene, evidence: seq<Evidence>, pod: Evidence, state: PodState): Option<Decision> {
    if (state.crash || state.oom) && !HasType(evidence, PreviousLogs) then
      Some(Call(scene, LOGS, LOGS, OnPod(scene)["tail_lines" := JNum(200)], [pod.id]))
    else if (state.crash || state.oom || state.imagePull || state.notReady)
            && !HasType(evidence, K8sEvents) && Has(pod.content, "uid") then
      Some(Call(scene, EVENTS, EVENTS, Base(scene)["resource_uid" := pod.content["uid"]], [pod.id]))
    else if state.oom && !HasType(evidence, ResourceLimits) then
      Some(Call(scene, LIMITS, LIMITS, OnPod(scene), [pod.id]))
    else None
  }

  /** The conclusion the pod's state already allows. */
  function PodVerdict(scene: Scene, evidence: seq<Evidence>, pod: Evidence, state: PodState): Option<Diagnosis> {
    var related := IdsOf(evidence, {PodStatus, PreviousLogs, K8sEvents, ResourceLimits});
    if state.oom then Some(Diagnosis("OOM_KILLED", related))
    else if state.imagePull then Some(Diagnosis("IMAGE_PULL_ERROR", related))
    else if state.crash then Some(CrashVerdict(scene, evidence, pod))
    else if Get(pod.content, "phase") == Some(JStr("Pending")) then Some(Diagnosis("POD_PENDING", related))
    else if state.notReady then Some(Diagnosis("READINESS_FAILURE", related))
    else None
  }

  /** The conclusion about the pod, or a metric query before it. */
  function PodConclusion(
    scene: Scene, evidence: seq<Evidence>, invoked: set<string>, pod: Evidence, state: PodState): Decision
  {
    match PodVerdict(scene, evidence, pod, state)
    case Some(v) => Diagnose(scene, v.code, v.code, v.citations)
    case None =>
      if scene.metric.Some? && QUERY in scene.registry && QUERY !in invoked then
        Query(scene, scene.metric.value, [pod.id])
      else if HasType(evidence, PrometheusMetrics) then
        Diagnose(scene, "METRICS", if scene.metric == Some("http_5xx_rate") then "HTTP_5XX" else "RESOURCE_PRESSURE",
                 [pod.id, Last(evidence, PrometheusMetrics).id])
      else Diagnose(scene, "NOTHING_ABNORMAL", "UNKNOWN", [pod.id])
  }

  function DecidePod(scene: Scene, evidence: seq<Evidence>, invoked: set<string>): Decision {
    if !HasType(evidence, PodStatus) then Call(scene, POD_STATUS_TOOL, POD_STATUS_TOOL, OnPod(scene), [])
    else
      var pod := Last(evidence, PodStatus);
      match PodCall(scene, evidence, pod, StateOf(pod))
      case Some(call) => call
      case None => PodConclusion(scene, evidence, invoked, pod, StateOf(pod))
  }

  function DecideWorkload(scene: Scene, evidence: seq<Evidence>, invoked: set<string>): Decision {
    if !HasType(evidence, WorkloadStatus) then
      Call(scene, WORKLOAD, WORKLOAD,
           Base(scene)["resource_kind" := JStr(scene.resourceKind)]
                      ["resource_name" := JStr(scene.target.resourceName)], [])
    else if RELATED in scene.registry && RELATED !in invoked then
      Call(scene, RELATED, RELATED,
           Base(scene)["workload_kind" := JStr(scene.resourceKind)]
                      ["workload_name" := JStr(scene.target.resourceName)],
           [Last(evidence, WorkloadStatus).id])
    else Diagnose(scene, "DEPLOYMENT_UNAVAILABLE", "DEPLOYMENT_UNAVAILABLE", IdsOf(evidence, {WorkloadStatus, PodStatus}))
  }

  function DecideOther(scene: Scene, evidence: seq<Evidence>, invoked: set<string>): Decision {
    if HasType(evidence, PrometheusMetrics) then
      Diagnose(scene, "METRICS", if scene.redis then "REDIS_UNAVAILABLE" else "RESOURCE_PRESSURE", 
               [Last(evidence, PrometheusMetrics).id])
    else if scene.metric.Some? && QUERY in scene.registry && QUERY !in invoked then Query(scene, scene.metric.value, [])
    else
      Decision(AskHuman, None, map[], scene.wording("INSUFFICIENT_EVIDENCE"),
               seq(|evidence|, i requires 0 <= i < |evidence| => evidence[i].id),
               Some("INSUFFICIENT_EVIDENCE"), None)
  }

  /** `RuleReasoner.decide` over eligible evidence; `invoked` are the tools of the run's history. */
  function Decide(scene: Scene, evidence: seq<Evidence>, invoked: set<string>): Decision {
    if scene.redis && QUERY in scene.registry && QUERY !in invoked then Query(scene, "redis_up", [])
    else
      match scene.kind
      case Pod => DecidePod(scene, evidence, invoked)
      case Workload => DecideWorkload(scene, evidence, invoked)
      case Other => DecideOther(scene, evidence, invoked)
  }

  // ---- A run in which every tool answers ----

  /** Evidence so far, the calls made, and the bound uid. */
  datatype Course = Course(evidence: seq<Evidence>, calls: seq<CallPrint>, uid: Json)

  function InvokedBy(calls: seq<CallPrint>): set<string> { set c | c in calls :: c.tool }

  /** What decides: `Decide` for a scene. */
  type Decider = (seq<Evidence>, set<string>) -> Decision

  function Rules(scene: Scene): Decider { (evidence, invoked) => Decide(scene, evidence, invoked) }

  function Next(decide: Decider, c: Course): Decision { decide(c.evidence, InvokedBy(c.calls)) }

  /** The evidence type of each tool's result. */
  function TypeOf(tool: string): EvidenceType {
    if tool == POD_STATUS_TOOL then PodStatus
    else if tool == LOGS then PreviousLogs
    else if tool == EVENTS then K8sEvents
    else if tool == LIMITS then ResourceLimits
    else if tool == WORKLOAD then WorkloadStatus
    else if tool == RELATED then PodStatus
    else PrometheusMetrics
  }

  /** The next state when the decision is a call and its tool returns `row`. */
  function Answered(decide: Decider, c: Course, row: Evidence): Course {
    var d := Next(decide, c);
    if !d.kind.CallTool? || d.tool.None? then c
    else
      var result := row.(kind := TypeOf(d.tool.value));
      Course(c.evidence + [result], c.calls + [CallPrint(d.tool.value, d.arguments)],
             BindUid(c.uid, d.tool.value, Outcome.Result(result.kind, result.source, result.content)))
  }

  /** An answer about the bound resource. */
  predicate Matching(c: Course, row: Evidence) { !UidStatusOf(UidOf(row.content), c.uid).Mismatch? }

  /** The states of a run whose tools answered `rows`. */
  ghost predicate IsRun(decide: Decider, cs: seq<Course>, rows: seq<Evidence>) {
    && |cs| == |rows| + 1
    && forall k {:trigger rows[k]} | 0 <= k < |rows| ::
         Matching(cs[k], rows[k]) && cs[k + 1] == Answered(decide, cs[k], rows[k])
  }

  // ---- The bound ----

  function One(b: bool): nat { if b then 1 else 0 }

  /** Calls that can still be made. */
  function Left(scene: Scene, c: Course): nat {
    var query := One(QUERY !in InvokedBy(c.calls));
    match scene.kind
    case Pod =>
      query + One(!HasType(c.evidence, PodStatus)) + One(!HasType(c.evidence, PreviousLogs))
      + One(!HasType(c.evidence, K8sEvents)) + One(!HasType(c.evidence, ResourceLimits))
    case Workload => query + One(!HasType(c.evidence, WorkloadStatus)) + One(RELATED !in InvokedBy(c.calls))
    case Other => query
  }

  lemma InvokedMore(calls: seq<CallPrint>, c: CallPrint)
    ensures InvokedBy(calls + [c]) == InvokedBy(calls) + {c.tool}
  {
    forall t ensures t in InvokedBy(calls + [c]) <==> t in InvokedBy(calls) + {c.tool} {
      if t in InvokedBy(calls) {
        var x :| x in calls && x.tool == t;
        assert x in calls + [c];
      }
      assert c in calls + [c];
    }
  }

  lemma TypesMore(evidence: seq<Evidence>, row: Evidence, kind: EvidenceType)
    ensures HasType(evidence + [row], kind) <==> HasType(evidence, kind) || row.kind == kind
  {
    if HasType(evidence, kind) {
      var e :| e in evidence && e.kind == kind;
      assert e in evidence + [row];
    }
    assert row in evidence + [row];
  }

  /** The tools and types are told apart. */
  lemma ToolNames()
    ensures TypeOf(QUERY) == PrometheusMetrics && TypeOf(POD_STATUS_TOOL) == PodStatus && TypeOf(LOGS) == PreviousLogs
    ensures TypeOf(EVENTS) == K8sEvents && TypeOf(LIMITS) == ResourceLimits
    ensures TypeOf(WORKLOAD) == WorkloadStatus && TypeOf(RELATED) == PodStatus
    ensures QUERY !in [RELATED, POD_STATUS_TOOL, LOGS, EVENTS, LIMITS, WORKLOAD]
  {
    assert QUERY[0] == 'q' && POD_STATUS_TOOL[0] == 'g' && RELATED[0] == 'l' && LOGS[0] == 'g' && EVENTS[0] == 'g';
    assert LIMITS[0] == 'g' && WORKLOAD[0] == 'g';
    assert POD_STATUS_TOOL[4] == 'p' && LOGS[4] == 'p' && EVENTS[4] == 'k' && LIMITS[4] == 'r' && WORKLOAD[4] == 'w';
    assert POD_STATUS_TOOL[5] == 'o' && LOGS[5] == 'r';
  }

  lemma OtherToolNames()
    ensures EVENTS !in [POD_STATUS_TOOL, LOGS, LIMITS, WORKLOAD, RELATED]
    ensures LOGS !in [POD_STATUS_TOOL, LIMITS, WORKLOAD, RELATED]
    ensures WORKLOAD !in [POD_STATUS_TOOL, LIMITS, RELATED]
  {
    ToolNames();
  }

  /** What is missing when a tool is called. */
  predicate Missing(scene: Scene, evidence: seq<Evidence>, invoked: set<string>, tool: string) {
    || (tool == QUERY && QUERY !in invoked)
    || (scene.kind.Pod? && tool in {POD_STATUS_TOOL, LOGS, EVENTS, LIMITS} && !HasType(evidence, TypeOf(tool)))
    || (scene.kind.Workload? && tool == WORKLOAD && !HasType(evidence, WorkloadStatus))
    || (scene.kind.Workload? && tool == RELATED && RELATED !in invoked)
  }

  lemma PodCallsAreMissing(scene: Scene, evidence: seq<Evidence>, invoked: set<string>)
    requires scene.kind.Pod? && DecidePod(scene, evidence, invoked).kind.CallTool?
    ensures var d := DecidePod(scene, evidence, invoked); d.tool.Some? && Missing(scene, evidence, invoked, d.tool.value)
  {
    ToolNames();
  }

  lemma CallsAreMissing(scene: Scene, evidence: seq<Evidence>, invoked: set<string>)
    requires Decide(scene, evidence, invoked).kind.CallTool?
    ensures var d := Decide(scene, evidence, invoked); d.tool.Some? && Missing(scene, evidence, invoked, d.tool.value)
  {
    if scene.kind.Pod? && !(scene.redis && QUERY in scene.registry && QUERY !in invoked) {
      PodCallsAreMissing(scene, evidence, invoked);
    }
  }

  /** A tool is only called for what is missing. */
  ghost predicate Frugal(scene: Scene, decide: Decider) {
    forall evidence, invoked | decide(evidence, invoked).kind.CallTool? ::
      && decide(evidence, invoked).tool.Some?
      && Missing(scene, evidence, invoked, decide(evidence, invoked).tool.value)
  }

  lemma RulesAreFrugal(scene: Scene)
    ensures Frugal(scene, Rules(scene))
  {
    forall evidence, invoked | Rules(scene)(evidence, invoked).kind.CallTool?
      ensures Rules(scene)(evidence, invoked).tool.Some?
      ensures Missing(scene, evidence, invoked, Rules(scene)(evidence, invoked).tool.value)
    {
      CallsAreMissing(scene, evidence, invoked);
    }
  }

  /** Each answered call uses up one of the calls that were left. */
  lemma AnswerUsesOneCall(scene: Scene, decide: Decider, c: Course, row: Evidence)
    requires Frugal(scene, decide) && Next(decide, c).kind.CallTool?
    ensures Left(scene, Answered(decide, c, row)) + 1 <= Left(scene, c)
  {
    var d := Next(decide, c);
    var result := row.(kind := TypeOf(d.tool.value));
    LeftFalls(scene, c, CallPrint(d.tool.value, d.arguments), result, Answered(decide, c, row));
  }

  lemma LeftFalls(scene: Scene, c: Course, call: CallPrint, result: Evidence, c': Course)
    requires Missing(scene, c.evidence, InvokedBy(c.calls), call.tool) && result.kind == TypeOf(call.tool)
    requires c'.evidence == c.evidence + [result] && c'.calls == c.calls + [call]
    ensures Left(scene, c') + 1 <= Left(scene, c)
  {
    ToolNames();
    InvokedMore(c.calls, call);
    TypesMore(c.evidence, result, PodStatus);
    TypesMore(c.evidence, result, PreviousLogs);
    TypesMore(c.evidence, result, K8sEvents);
    TypesMore(c.evidence, result, ResourceLimits);
    TypesMore(c.evidence, result, WorkloadStatus);
  }

  // ---- Every decision passes its gates ----

  /** The tools the rules always use are registered, read-only and open to the incident's target. */
  predicate Equipped(scene: Scene) {
    && {POD_STATUS_TOOL, LOGS, EVENTS, LIMITS, WORKLOAD} <= scene.registry.Keys
    && (forall name | name in scene.registry ::
          var tool := scene.registry[name];
          && tool.readOnly && !tool.requiresApproval
          && scene.target.cluster in tool.clusters && scene.target.namespace in tool.namespaces)
    && scene.target.namespace !in SYSTEM_NAMESPACES
  }

  /** Ids a decision may cite, and the alert that is always there. */
  ghost predicate Cites(evidence: seq<Evidence>, ids: seq<Id>) {
    forall id | id in ids :: exists e | e in evidence :: e.id == id
  }

  function Known(evidence: seq<Evidence>): set<Id> { set e | e in evidence :: e.id }

  predicate Accepting(text: TextRules, d: Decision) { text.schemaValid(d) && !text.executable(d) }

  lemma CitedAreKnown(evidence: seq<Evidence>, ids: seq<Id>)
    requires Cites(evidence, ids)
    ensures ToSet(ids) <= Known(evidence)
  {
    forall id | id in ToSet(ids) ensures id in Known(evidence) {
      var e :| e in evidence && e.id == id;
    }
  }

  /** The shape of every decision of the rules. */
  ghost predicate Sound(scene: Scene, evidence: seq<Evidence>, d: Decision) {
    && Cites(evidence, d.evidenceIds)
    && match d.kind
       case CallTool => !Blank(d.tool) && d.tool.value in scene.registry && d.diagnosis.None? && d.stopReason.None?
       case Complete =>
         && d.tool.None? && d.arguments == map[] && d.evidenceIds != []
         && d.diagnosis.Some? && d.diagnosis.value.citations == d.evidenceIds
       case _ => d.tool.None? && d.arguments == map[] && d.diagnosis.None? && !Blank(d.stopReason)
  }

  lemma SoundDecisionsValidate(scene: Scene, text: TextRules, evidence: seq<Evidence>, d: Decision)
    requires Sound(scene, evidence, d) && Accepting(text, d)
    ensures Validate(text, scene.registry, d, Known(evidence)).None?
  {
    CitedAreKnown(evidence, d.evidenceIds);
  }

  lemma CallIsSound(
    scene: Scene, evidence: seq<Evidence>, topic: string, tool: string, arguments: Content, ids: seq<Id>)
    requires tool in scene.registry && tool != "" && Cites(evidence, ids)
    ensures Sound(scene, evidence, Call(scene, topic, tool, arguments, ids))
  {
  }

  lemma DiagnosisIsSound(scene: Scene, evidence: seq<Evidence>, topic: string, code: string, ids: seq<Id>)
    requires Cites(evidence, ids)
    ensures Sound(scene, evidence, Diagnose(scene, topic, code, ids)) <==> ids != []
  {
  }

  /** A type that is there has an id to cite. */
  lemma IdsOfAreCited(evidence: seq<Evidence>, kinds: set<EvidenceType>, e: Evidence)
    requires e in evidence && e.kind in kinds
    ensures IdsOf(evidence, kinds) != [] && Cites(evidence, IdsOf(evidence, kinds)) && Cites(evidence, [e.id])
  {
  }

  lemma LastIsCited(evidence: seq<Evidence>, kind: EvidenceType)
    ensures Cites(evidence, LastIds(evidence, kind)) && (HasType(evidence, kind) <==> LastIds(evidence, kind) != [])
  {
  }

  lemma CitesBoth(evidence: seq<Evidence>, a: seq<Id>, b: seq<Id>)
    requires Cites(evidence, a) && Cites(evidence, b)
    ensures Cites(evidence, a + b)
  {
  }

  /**
   * The diagnosis of a crash is about to be UNKNOWN for lack of anything it knows, and cites the alert
   * for it, but there is none: the pod counts as crashed only by a last termination reason, which the
   * diagnosis does not read.
   */
  predicate NothingToCite(scene: Scene, evidence: seq<Evidence>, pod: Evidence) {
    && !CrashLoop(Containers(pod.content)) && !NotReady(pod.content)
    && !HasType(evidence, AlertPayload)
    && !(scene.redisDown(evidence) && HasType(evidence, PrometheusMetrics))
  }

  lemma CrashVerdictCites(scene: Scene, evidence: seq<Evidence>, pod: Evidence)
    requires pod in evidence && pod.kind.PodStatus?
    ensures CrashVerdict(scene, evidence, pod).citations == [] <==> NothingToCite(scene, evidence, pod)
    ensures Cites(evidence, CrashVerdict(scene, evidence, pod).citations)
  {
    IdsOfAreCited(evidence, {PodStatus, PreviousLogs, K8sEvents}, pod);
    LastIsCited(evidence, PrometheusMetrics);
    LastIsCited(evidence, AlertPayload);
    CitesBoth(evidence, LastIds(evidence, PrometheusMetrics), LastIds(evidence, AlertPayload));
  }

  /** The crash diagnosis is what decides. */
  predicate CrashDecides(state: PodState) { state.crash && !state.oom && !state.imagePull }

  lemma PodVerdictCites(scene: Scene, evidence: seq<Evidence>, pod: Evidence, state: PodState)
    requires pod in evidence && pod.kind.PodStatus?
    requires PodVerdict(scene, evidence, pod, state).Some?
    ensures var v := PodVerdict(scene, evidence, pod, state).value;
            && Cites(evidence, v.citations)
            && (v.citations == [] <==> CrashDecides(state) && NothingToCite(scene, evidence, pod))
  {
    IdsOfAreCited(evidence, {PodStatus, PreviousLogs, K8sEvents, ResourceLimits}, pod);
    CrashVerdictCites(scene, evidence, pod);
  }

  lemma PodConclusionIsSound(
    scene: Scene, evidence: seq<Evidence>, invoked: set<string>, pod: Evidence, state: PodState)
    requires pod in evidence && pod.kind.PodStatus?
    ensures Sound(scene, evidence, PodConclusion(scene, evidence, invoked, pod, state))
            <==> !(CrashDecides(state) && NothingToCite(scene, evidence, pod))
  {
    assert Cites(evidence, [pod.id]);
    var verdict := PodVerdict(scene, evidence, pod, state);
    if verdict.Some? {
      PodVerdictCites(scene, evidence, pod, state);
      DiagnosisIsSound(scene, evidence, verdict.value.code, verdict.value.code, verdict.value.citations);
    } else if HasType(evidence, PrometheusMetrics) {
      assert Cites(evidence, [pod.id, Last(evidence, PrometheusMetrics).id]);
    }
  }

  lemma PodCallIsSound(scene: Scene, evidence: seq<Evidence>, pod: Evidence, state: PodState)
    requires Equipped(scene) && pod in evidence && PodCall(scene, evidence, pod, state).Some?
    ensures Sound(scene, evidence, PodCall(scene, evidence, pod, state).value)
  {
    assert Cites(evidence, [pod.id]);
    assert |LOGS| > 0 && |EVENTS| > 0 && |LIMITS| > 0;
  }

  /** Every read about the pod is done, and its crash is to be diagnosed with nothing to cite. */
  predicate Unfounded(scene: Scene, evidence: seq<Evidence>) {
    && HasType(evidence, PodStatus)
    && var pod := Last(evidence, PodStatus);
       && HasType(evidence, PreviousLogs) && (HasType(evidence, K8sEvents) || !Has(pod.content, "uid"))
       && CrashDecides(StateOf(pod)) && NothingToCite(scene, evidence, pod)
  }

  lemma PodDecisionIsSound(scene: Scene, evidence: seq<Evidence>, invoked: set<string>)
    requires Equipped(scene)
    ensures Sound(scene, evidence, DecidePod(scene, evidence, invoked)) <==> !Unfounded(scene, evidence)
  {
    if HasType(evidence, PodStatus) {
      var pod := Last(evidence, PodStatus);
      if PodCall(scene, evidence, pod, StateOf(pod)).Some? {
        PodCallIsSound(scene, evidence, pod, StateOf(pod));
      } else {
        PodConclusionIsSound(scene, evidence, invoked, pod, StateOf(pod));
      }
    } else {
      assert |POD_STATUS_TOOL| > 0;
      CallIsSound(scene, evidence, POD_STATUS_TOOL, POD_STATUS_TOOL, OnPod(scene), []);
    }
  }

  lemma WorkloadDecisionIsSound(scene: Scene, evidence: seq<Evidence>, invoked: set<string>)
    requires Equipped(scene)
    ensures Sound(scene, evidence, DecideWorkload(scene, evidence, invoked))
  {
    assert |WORKLOAD| > 0 && |RELATED| > 0;
    if HasType(evidence, WorkloadStatus) {
      IdsOfAreCited(evidence, {WorkloadStatus, PodStatus}, Last(evidence, WorkloadStatus));
    }
  }

  lemma OtherDecisionIsSound(scene: Scene, evidence: seq<Evidence>, invoked: set<string>)
    ensures Sound(scene, evidence, DecideOther(scene, evidence, invoked))
  {
    assert |QUERY| > 0 && |"INSUFFICIENT_EVIDENCE"| > 0;
  }

  /** Redis is asked about before anything else. */
  predicate AsksRedis(scene: Scene, invoked: set<string>) {
    scene.redis && QUERY in scene.registry && QUERY !in invoked
  }

  /** A crash is to be diagnosed with nothing to cite. */
  predicate Groundless(scene: Scene, evidence: seq<Evidence>, invoked: set<string>) {
    scene.kind.Pod? && !AsksRedis(scene, invoked) && Unfounded(scene, evidence)
  }

  /** With its tools at hand a decision is one that validation can accept, but for an unfounded crash diagnosis. */
  lemma DecisionIsSound(scene: Scene, evidence: seq<Evidence>, invoked: set<string>)
    requires Equipped(scene)
    ensures Sound(scene, evidence, Decide(scene, evidence, invoked))
            <==> !Groundless(scene, evidence, invoked)
  {
    assert |QUERY| > 0;
    match scene.kind
    case Pod => PodDecisionIsSound(scene, evidence, invoked);
    case Workload => WorkloadDecisionIsSound(scene, evidence, invoked);
    case Other => OtherDecisionIsSound(scene, evidence, invoked);
  }

  lemma UnfoundedCitesNothing(scene: Scene, evidence: seq<Evidence>, invoked: set<string>)
    requires Groundless(scene, evidence, invoked)
    ensures Decide(scene, evidence, invoked).kind.Complete? && Decide(scene, evidence, invoked).evidenceIds == []
  {
    CrashVerdictCites(scene, evidence, Last(evidence, PodStatus));
  }

  /** A running pod whose only sign of a crash is the reason its container last terminated for. */
  const LAST_TERMINATED := Evidence(
    "pod", "run", PodStatus, "kubernetes", POD_FIELDS, Some(0), None)

  const POD_FIELDS: Content :=
    map["uid" := JStr("u"), "phase" := JStr("Running"), "ready" := JBool(true), "containers" := JArr([JObj(TERMINATED)])]

  const TERMINATED: Content :=
    map["restart_count" := JNum(0), "waiting_reason" := JNull, "last_exit_code" := JNull,
        "last_terminated_reason" := JStr("CrashLoopBackOff")]

  const ITS_LOGS := Evidence("logs", "run", PreviousLogs, "kubernetes", map["content" := JStr("")], Some(0), None)

  const ITS_EVENTS := Evidence("events", "run", K8sEvents, "kubernetes", map["events" := JArr([])], Some(0), None)

  const EVERYTHING_READ := [LAST_TERMINATED, ITS_LOGS, ITS_EVENTS]

  lemma FieldNames()
    ensures "uid" != "ready" && "uid" != "phase" && "uid" != "containers" && "ready" != "containers" && "ready" != "phase"
    ensures "phase" != "containers" && "uid" != "content" && "uid" != "events"
    ensures "restart_count" != "waiting_reason" && "restart_count" != "last_exit_code"
    ensures "waiting_reason" != "last_exit_code"
    ensures "last_terminated_reason" !in ["restart_count", "waiting_reason", "last_exit_code"]
    ensures "CrashLoopBackOff" !in ["OOMKilled", "ImagePullBackOff", "ErrImagePull"]
  {
    assert |"uid"| == 3 && |"ready"| == 5 && |"phase"| == 5 && |"containers"| == 10 && |"content"| == 7;
    assert "ready"[0] == 'r' && "phase"[0] == 'p' && |"events"| == 6;
    assert |"last_terminated_reason"| == 22 && |"waiting_reason"| == 14 && |"restart_count"| == 13;
    assert |"last_exit_code"| == 14 && "waiting_reason"[0] == 'w' && "last_exit_code"[0] == 'l';
    assert |"CrashLoopBackOff"| == 16 && |"OOMKilled"| == 9 && |"ErrImagePull"| == 12;
    assert "CrashLoopBackOff"[0] == 'C' && "ImagePullBackOff"[0] == 'I';
  }

  lemma LastTerminatedState()
    ensures StateOf(LAST_TERMINATED) == PodState(true, false, false, false)
    ensures !CrashLoop(Containers(POD_FIELDS)) && POD_FIELDS["uid"] == JStr("u")
  {
    FieldNames();
    var containers := Containers(POD_FIELDS);
    assert containers == [JObj(TERMINATED)] && containers[0] == JObj(TERMINATED);
    assert containers[0] in containers;
  }

  /** The rows are fresh, and of the uid the pod status has bound. */
  lemma EverythingIsEligible(ttls: map<EvidenceType, int>)
    requires forall kind | kind in ttls :: ttls[kind] > 0
    ensures forall e | e in EVERYTHING_READ ::
              FreshnessOf(e, 0, ttls).Fresh? && !UidStatusOf(UidOf(e.content), JStr("u")).Mismatch?
  {
    FieldNames();
    LastTerminatedState();
  }

  lemma EverythingIsUnfounded(scene: Scene)
    ensures Unfounded(scene, EVERYTHING_READ)
  {
    var evidence := EVERYTHING_READ;
    LastTerminatedState();
    assert evidence[0] == LAST_TERMINATED && evidence[1] == ITS_LOGS && evidence[2] == ITS_EVENTS;
    assert evidence[..2] == [LAST_TERMINATED, ITS_LOGS] && evidence[..2][..1] == [LAST_TERMINATED];
  }

  /** On these rows the rules conclude without evidence, and validation refuses the decision. */
  lemma CrashWithNothingToCite(scene: Scene, text: TextRules, invoked: set<string>)
    requires Equipped(scene) && scene.kind.Pod? && !scene.redis
    ensures var d := Decide(scene, EVERYTHING_READ, invoked);
            && d.kind.Complete? && d.evidenceIds == []
            && (Accepting(text, d) ==>
                  Validate(text, scene.registry, d, Known(EVERYTHING_READ)) == Some(InsufficientEvidence))
  {
    EverythingIsUnfounded(scene);
    UnfoundedCitesNothing(scene, EVERYTHING_READ, invoked);
  }

  // ---- The schema and the search for executable text ----

  /** No string of the value, key or not, is harmful. */
  predicate Harmless(v: Json, harmful: string -> bool) {
    match v
    case JStr(s) => !harmful(s)
    case JArr(items) => forall i | 0 <= i < |items| :: Harmless(items[i], harmful)
    case JObj(fields) => forall key | key in fields :: !harmful(key) && Harmless(fields[key], harmful)
    case _ => true
  }

  /**
   * The two checks: the schema accepts what conforms, and the pattern for executable text, which no
   * text across the quotes of a string can match, finds nothing where every string is harmless.
   */
  ghost predicate Checks(text: TextRules, harmful: string -> bool) {
    && (forall d: Decision :: Conforms(d) ==> text.schemaValid(d))
    && (forall d: Decision :: !harmful(d.summary) && Harmless(JObj(d.arguments), harmful) ==> !text.executable(d))
  }

  /** Every fixed word among the arguments. */
  const WORDS := {"cluster", "namespace", "pod_name", "resource_name", "query_name", "tail_lines", "resource_uid",
                  "resource_kind", "workload_kind", "workload_name", "redis_up"}

  /** The names of the incident, the fixed words and sentences hold no executable text. */
  ghost predicate PlainNames(scene: Scene, harmful: string -> bool) {
    && (forall word | word in WORDS :: !harmful(word))
    && !harmful(scene.target.cluster) && !harmful(scene.target.namespace) && !harmful(scene.target.resourceName)
    && !harmful(scene.resourceKind) && (scene.metric.Some? ==> !harmful(scene.metric.value))
    && forall topic :: !harmful(scene.wording(topic)) && 1 <= |scene.wording(topic)| <= 500
  }

  /** Neither does the uid a pod status reports. */
  predicate PlainUid(e: Evidence, harmful: string -> bool) {
    e.kind.PodStatus? && Has(e.content, "uid") ==> Harmless(e.content["uid"], harmful)
  }

  predicate DistinctRows(evidence: seq<Evidence>) {
    forall i, j | 0 <= i < j < |evidence| :: evidence[i].id != evidence[j].id
  }

  /** What the two checks look at. */
  predicate Acceptable(d: Decision, harmful: string -> bool) {
    Conforms(d) && !harmful(d.summary) && Harmless(JObj(d.arguments), harmful)
  }

  lemma {:induction false} IdsOfAreDistinct(evidence: seq<Evidence>, kinds: set<EvidenceType>)
    requires DistinctRows(evidence)
    ensures DistinctIds(IdsOf(evidence, kinds))
  {
    if evidence != [] {
      IdsOfAreDistinct(evidence[1..], kinds);
      forall e | e in evidence[1..] ensures e.id != evidence[0].id {
        var k :| 0 <= k < |evidence[1..]| && evidence[1..][k] == e;
        assert evidence[k + 1] == e;
      }
      assert evidence[0].id !in IdsOf(evidence[1..], kinds);
    }
  }

  lemma TwoRowsTwoIds(evidence: seq<Evidence>, a: Evidence, b: Evidence)
    requires DistinctRows(evidence) && a in evidence && b in evidence && a != b
    ensures a.id != b.id
  {
    var i :| 0 <= i < |evidence| && evidence[i] == a;
    var j :| 0 <= j < |evidence| && evidence[j] == b;
    if i < j {
      assert evidence[i].id != evidence[j].id;
    } else {
      assert evidence[j].id != evidence[i].id;
    }
  }

  /** Adding an argument keeps the arguments harmless. */
  lemma HarmlessMore(arguments: Content, key: string, value: Json, harmful: string -> bool)
    requires Harmless(JObj(arguments), harmful) && !harmful(key) && Harmless(value, harmful)
    ensures Harmless(JObj(arguments[key := value]), harmful)
  {
    var more := arguments[key := value];
    forall k | k in more ensures !harmful(k) && Harmless(more[k], harmful) {
      if k != key {
        assert k in arguments;
      }
    }
  }

  lemma BaseHarmless(scene: Scene, harmful: string -> bool)
    requires PlainNames(scene, harmful)
    ensures Harmless(JObj(Base(scene)), harmful) && Harmless(JObj(OnPod(scene)), harmful)
  {
    HarmlessMore(map[], "cluster", JStr(scene.target.cluster), harmful);
    HarmlessMore(map["cluster" := JStr(scene.target.cluster)], "namespace", JStr(scene.target.namespace), harmful);
    HarmlessMore(Base(scene), "pod_name", JStr(scene.target.resourceName), harmful);
  }

  /** The arguments that name something beside the resource. */
  lemma BaseWithTwoHarmless(scene: Scene, key: string, value: string, nameKey: string, harmful: string -> bool)
    requires PlainNames(scene, harmful) && key in WORDS && nameKey in WORDS && !harmful(value)
    ensures Harmless(JObj(Base(scene)[key := JStr(value)][nameKey := JStr(scene.target.resourceName)]), harmful)
  {
    BaseHarmless(scene, harmful);
    HarmlessMore(Base(scene), key, JStr(value), harmful);
    HarmlessMore(Base(scene)[key := JStr(value)], nameKey, JStr(scene.target.resourceName), harmful);
  }

  lemma QueryAcceptable(scene: Scene, name: string, ids: seq<Id>, harmful: string -> bool)
    requires PlainNames(scene, harmful) && !harmful(name) && DistinctIds(ids)
    ensures Acceptable(Query(scene, name, ids), harmful)
  {
    BaseWithTwoHarmless(scene, "query_name", name, "resource_name", harmful);
    assert |QUERY| <= 100;
  }

  lemma PodCallAcceptable(scene: Scene, evidence: seq<Evidence>, pod: Evidence, state: PodState, harmful: string -> bool)
    requires PlainNames(scene, harmful) && pod.kind.PodStatus? && PlainUid(pod, harmful)
    requires PodCall(scene, evidence, pod, state).Some?
    ensures Acceptable(PodCall(scene, evidence, pod, state).value, harmful)
  {
    BaseHarmless(scene, harmful);
    HarmlessMore(OnPod(scene), "tail_lines", JNum(200), harmful);
    if Has(pod.content, "uid") {
      HarmlessMore(Base(scene), "resource_uid", pod.content["uid"], harmful);
    }
    assert |LOGS| <= 100 && |EVENTS| <= 100 && |LIMITS| <= 100;
  }

  lemma PodVerdictAcceptable(scene: Scene, evidence: seq<Evidence>, pod: Evidence, state: PodState)
    requires DistinctRows(evidence) && PodVerdict(scene, evidence, pod, state).Some?
    ensures var v := PodVerdict(scene, evidence, pod, state).value; v.code in DIAGNOSIS_CODES && DistinctIds(v.citations)
  {
    IdsOfAreDistinct(evidence, {PodStatus, PreviousLogs, K8sEvents, ResourceLimits});
    IdsOfAreDistinct(evidence, {PodStatus, PreviousLogs, K8sEvents});
    if HasType(evidence, PrometheusMetrics) && HasType(evidence, AlertPayload) {
      TwoRowsTwoIds(evidence, Last(evidence, PrometheusMetrics), Last(evidence, AlertPayload));
    }
  }

  lemma DiagnosisAcceptable(scene: Scene, topic: string, code: string, ids: seq<Id>, harmful: string -> bool)
    requires PlainNames(scene, harmful) && code in DIAGNOSIS_CODES && DistinctIds(ids)
    ensures Acceptable(Diagnose(scene, topic, code, ids), harmful)
  {
  }

  lemma PodConclusionAcceptable(
    scene: Scene, evidence: seq<Evidence>, invoked: set<string>, pod: Evidence, state: PodState, harmful: string -> bool)
    requires PlainNames(scene, harmful) && DistinctRows(evidence) && pod in evidence && pod.kind.PodStatus?
    ensures Acceptable(PodConclusion(scene, evidence, invoked, pod, state), harmful)
  {
    var verdict := PodVerdict(scene, evidence, pod, state);
    if verdict.Some? {
      PodVerdictAcceptable(scene, evidence, pod, state);
      DiagnosisAcceptable(scene, verdict.value.code, verdict.value.code, verdict.value.citations, harmful);
    } else if scene.metric.Some? && QUERY in scene.registry && QUERY !in invoked {
      QueryAcceptable(scene, scene.metric.value, [pod.id], harmful);
    } else if HasType(evidence, PrometheusMetrics) {
      TwoRowsTwoIds(evidence, pod, Last(evidence, PrometheusMetrics));
      var code := if scene.metric == Some("http_5xx_rate") then "HTTP_5XX" else "RESOURCE_PRESSURE";
      DiagnosisAcceptable(scene, "METRICS", code, [pod.id, Last(evidence, PrometheusMetrics).id], harmful);
    } else {
      DiagnosisAcceptable(scene, "NOTHING_ABNORMAL", "UNKNOWN", [pod.id], harmful);
    }
  }

  lemma PodDecisionAcceptable(scene: Scene, evidence: seq<Evidence>, invoked: set<string>, harmful: string -> bool)
    requires PlainNames(scene, harmful) && DistinctRows(evidence) && forall e | e in evidence :: PlainUid(e, harmful)
    ensures Acceptable(DecidePod(scene, evidence, invoked), harmful)
  {
    if !HasType(evidence, PodStatus) {
      BaseHarmless(scene, harmful);
      assert |POD_STATUS_TOOL| <= 100;
    } else {
      var pod := Last(evidence, PodStatus);
      if PodCall(scene, evidence, pod, StateOf(pod)).Some? {
        PodCallAcceptable(scene, evidence, pod, StateOf(pod), harmful);
      } else {
        PodConclusionAcceptable(scene, evidence, invoked, pod, StateOf(pod), harmful);
      }
    }
  }

  lemma WorkloadDecisionAcceptable(scene: Scene, evidence: seq<Evidence>, invoked: set<string>, harmful: string -> bool)
    requires PlainNames(scene, harmful) && DistinctRows(evidence)
    ensures Acceptable(DecideWorkload(scene, evidence, invoked), harmful)
  {
    BaseWithTwoHarmless(scene, "resource_kind", scene.resourceKind, "resource_name", harmful);
    BaseWithTwoHarmless(scene, "workload_kind", scene.resourceKind, "workload_name", harmful);
    IdsOfAreDistinct(evidence, {WorkloadStatus, PodStatus});
    assert |WORKLOAD| <= 100 && |RELATED| <= 100;
  }

  lemma OtherDecisionAcceptable(scene: Scene, evidence: seq<Evidence>, invoked: set<string>, harmful: string -> bool)
    requires PlainNames(scene, harmful) && DistinctRows(evidence)
    ensures Acceptable(DecideOther(scene, evidence, invoked), harmful)
  {
    if !HasType(evidence, PrometheusMetrics) && scene.metric.Some? {
      QueryAcceptable(scene, scene.metric.value, [], harmful);
    }
    assert |"INSUFFICIENT_EVIDENCE"| <= 100;
  }

  /** With plain names and uids and rows under distinct ids, schema and text search accept every decision. */
  lemma DecisionIsAcceptable(
    scene: Scene, text: TextRules, evidence: seq<Evidence>, invoked: set<string>, harmful: string -> bool)
    requires Checks(text, harmful) && PlainNames(scene, harmful)
    requires DistinctRows(evidence) && forall e | e in evidence :: PlainUid(e, harmful)
    ensures Accepting(text, Decide(scene, evidence, invoked))
  {
    QueryAcceptable(scene, "redis_up", [], harmful);
    match scene.kind
    case Pod => PodDecisionAcceptable(scene, evidence, invoked, harmful);
    case Workload => WorkloadDecisionAcceptable(scene, evidence, invoked, harmful);
    case Other => OtherDecisionAcceptable(scene, evidence, invoked, harmful);
  }

  /** What the policy looks at in a call of the rules. */
  ghost predicate OnTarget(scene: Scene, evidence: seq<Evidence>, d: Decision) {
    && Get(d.arguments, "cluster") == Some(JStr(scene.target.cluster))
    && Get(d.arguments, "namespace") == Some(JStr(scene.target.namespace))
    && (forall key | key in NAME_KEYS :: Has(d.arguments, key) ==> d.arguments[key] == JStr(scene.target.resourceName))
    && (Truthy(UidArgument(d.arguments)) ==>
          HasType(evidence, PodStatus) && Has(Last(evidence, PodStatus).content, "uid")
          && UidArgument(d.arguments) == Last(evidence, PodStatus).content["uid"])
  }

  /** The argument names of the rules, told apart. */
  lemma ArgumentNames()
    ensures "cluster" !in NAME_KEYS && "namespace" !in NAME_KEYS && "query_name" !in NAME_KEYS && "tail_lines" !in NAME_KEYS
    ensures "resource_uid" !in NAME_KEYS && "resource_kind" !in NAME_KEYS && "workload_kind" !in NAME_KEYS
    ensures "cluster" != "namespace"
    ensures forall key | key in ["pod_name", "query_name", "resource_name", "tail_lines", "resource_uid", "resource_kind",
                                 "workload_kind", "workload_name"] :: key != "cluster" && key != "namespace"
    ensures "resource_uid" !in ["cluster", "namespace", "pod_name", "query_name", "resource_name", "tail_lines",
                                "resource_kind", "workload_kind", "workload_name"]
  {
    assert |"cluster"| == 7 && |"namespace"| == 9 && |"query_name"| == 10 && |"tail_lines"| == 10 && |"resource_uid"| == 12;
    assert |"resource_kind"| == 13 && |"workload_kind"| == 13 && |"pod_name"| == 8 && |"resource_name"| == 13;
    assert |"deployment_name"| == 15 && |"workload_name"| == 13;
    assert "resource_kind"[9] == 'k' && "workload_kind"[9] == 'k' && "resource_name"[9] == 'n' && "workload_name"[9] == 'n';
  }

  /** Adding an argument that names nothing, or names the target. */
  ghost predicate Scoped(scene: Scene, arguments: Content) {
    && Get(arguments, "cluster") == Some(JStr(scene.target.cluster))
    && Get(arguments, "namespace") == Some(JStr(scene.target.namespace))
    && (forall key | key in NAME_KEYS :: Has(arguments, key) ==> arguments[key] == JStr(scene.target.resourceName))
  }

  lemma BaseScoped(scene: Scene)
    ensures Scoped(scene, Base(scene)) && "resource_uid" !in Base(scene)
  {
    ArgumentNames();
  }

  lemma ScopedMore(scene: Scene, arguments: Content, key: string, value: Json)
    requires Scoped(scene, arguments) && key != "cluster" && key != "namespace"
    requires key in NAME_KEYS ==> value == JStr(scene.target.resourceName)
    ensures Scoped(scene, arguments[key := value])
    ensures key != "resource_uid" ==> ("resource_uid" in arguments[key := value] <==> "resource_uid" in arguments)
  {
  }

  lemma PodArgumentsScoped(scene: Scene)
    ensures Scoped(scene, OnPod(scene)) && "resource_uid" !in OnPod(scene)
    ensures Scoped(scene, OnPod(scene)["tail_lines" := JNum(200)])
    ensures "resource_uid" !in OnPod(scene)["tail_lines" := JNum(200)]
  {
    ArgumentNames();
    BaseScoped(scene);
    ScopedMore(scene, Base(scene), "pod_name", JStr(scene.target.resourceName));
    ScopedMore(scene, OnPod(scene), "tail_lines", JNum(200));
  }

  lemma QueryScoped(scene: Scene, name: string, ids: seq<Id>)
    ensures Scoped(scene, Query(scene, name, ids).arguments) && "resource_uid" !in Query(scene, name, ids).arguments
  {
    ArgumentNames();
    BaseScoped(scene);
    ScopedMore(scene, Base(scene), "query_name", JStr(name));
    ScopedMore(scene, Base(scene)["query_name" := JStr(name)], "resource_name", JStr(scene.target.resourceName));
  }

  lemma WorkloadArgumentsScoped(scene: Scene, evidence: seq<Evidence>, invoked: set<string>)
    requires DecideWorkload(scene, evidence, invoked).kind.CallTool?
    ensures var a := DecideWorkload(scene, evidence, invoked).arguments; Scoped(scene, a) && "resource_uid" !in a
  {
    ArgumentNames();
    BaseScoped(scene);
    var kind, name := JStr(scene.resourceKind), JStr(scene.target.resourceName);
    ScopedMore(scene, Base(scene), "resource_kind", kind);
    ScopedMore(scene, Base(scene)["resource_kind" := kind], "resource_name", name);
    ScopedMore(scene, Base(scene), "workload_kind", kind);
    ScopedMore(scene, Base(scene)["workload_kind" := kind], "workload_name", name);
  }

  lemma PodCallOnTarget(scene: Scene, evidence: seq<Evidence>, pod: Evidence, state: PodState)
    requires HasType(evidence, PodStatus) && pod == Last(evidence, PodStatus) && PodCall(scene, evidence, pod, state).Some?
    ensures OnTarget(scene, evidence, PodCall(scene, evidence, pod, state).value)
  {
    ArgumentNames();
    BaseScoped(scene);
    PodArgumentsScoped(scene);
    if Has(pod.content, "uid") {
      ScopedMore(scene, Base(scene), "resource_uid", pod.content["uid"]);
    }
  }

  /** Every call of the rules stays on the incident's target; a uid it names is the pod's. */
  lemma CallsAreOnTarget(scene: Scene, evidence: seq<Evidence>, invoked: set<string>)
    requires Decide(scene, evidence, invoked).kind.CallTool?
    ensures OnTarget(scene, evidence, Decide(scene, evidence, invoked))
  {
    QueryScoped(scene, "redis_up", []);
    if scene.redis && QUERY in scene.registry && QUERY !in invoked {
    } else if scene.kind.Pod? {
      PodCallsOnTarget(scene, evidence, invoked);
    } else if scene.kind.Workload? {
      WorkloadArgumentsScoped(scene, evidence, invoked);
    } else if scene.metric.Some? {
      QueryScoped(scene, scene.metric.value, []);
    }
  }

  lemma PodCallsOnTarget(scene: Scene, evidence: seq<Evidence>, invoked: set<string>)
    requires DecidePod(scene, evidence, invoked).kind.CallTool?
    ensures OnTarget(scene, evidence, DecidePod(scene, evidence, invoked))
  {
    if !HasType(evidence, PodStatus) {
      PodArgumentsScoped(scene);
    } else {
      var pod := Last(evidence, PodStatus);
      if PodCall(scene, evidence, pod, StateOf(pod)).Some? {
        PodCallOnTarget(scene, evidence, pod, StateOf(pod));
      } else if scene.metric.Some? {
        QueryScoped(scene, scene.metric.value, [pod.id]);
      }
    }
  }

  // ---- The course of a run ----

  /** The pod's uid, once read, is the bound one; a tool that was called left its evidence. */
  ghost predicate OnCourse(scene: Scene, c: Course) {
    && (forall p | p in c.calls :: HasType(c.evidence, TypeOf(p.tool)))
    && (scene.kind.Pod? && HasType(c.evidence, PodStatus) && Has(Last(c.evidence, PodStatus).content, "uid") ==>
          c.uid == Last(c.evidence, PodStatus).content["uid"])
  }

  lemma LastAppended(evidence: seq<Evidence>, row: Evidence, kind: EvidenceType)
    requires HasType(evidence + [row], kind)
    ensures Last(evidence + [row], kind) == row <==>
              row.kind == kind || (HasType(evidence, kind) && Last(evidence, kind) == row)
    ensures row.kind != kind ==> HasType(evidence, kind) && Last(evidence + [row], kind) == Last(evidence, kind)
  {
    TypesMore(evidence, row, kind);
    assert (evidence + [row])[..|evidence|] == evidence;
  }

  lemma AnswerStaysOnCourse(scene: Scene, decide: Decider, c: Course, row: Evidence)
    requires Frugal(scene, decide) && OnCourse(scene, c) && Matching(c, row)
    ensures OnCourse(scene, Answered(decide, c, row))
  {
    var d := Next(decide, c);
    if d.kind.CallTool? {
      var result := row.(kind := TypeOf(d.tool.value));
      AppendStaysOnCourse(scene, c, CallPrint(d.tool.value, d.arguments), result, Answered(decide, c, row));
    }
  }

  lemma AppendStaysOnCourse(scene: Scene, c: Course, call: CallPrint, result: Evidence, c': Course)
    requires OnCourse(scene, c) && Matching(c, result) && Missing(scene, c.evidence, InvokedBy(c.calls), call.tool)
    requires result.kind == TypeOf(call.tool)
    requires c' == Course(c.evidence + [result], c.calls + [call],
                          BindUid(c.uid, call.tool, Outcome.Result(result.kind, result.source, result.content)))
    ensures OnCourse(scene, c')
  {
    ToolNames();
    forall p | p in c'.calls ensures HasType(c'.evidence, TypeOf(p.tool)) {
      TypesMore(c.evidence, result, TypeOf(p.tool));
    }
    TypesMore(c.evidence, result, PodStatus);
    if scene.kind.Pod? && HasType(c'.evidence, PodStatus) {
      LastAppended(c.evidence, result, PodStatus);
    }
  }

  lemma CallsAreSound(scene: Scene, evidence: seq<Evidence>, invoked: set<string>)
    requires Equipped(scene) && Decide(scene, evidence, invoked).kind.CallTool?
    ensures Sound(scene, evidence, Decide(scene, evidence, invoked))
  {
    DecisionIsSound(scene, evidence, invoked);
    if Groundless(scene, evidence, invoked) {
      UnfoundedCitesNothing(scene, evidence, invoked);
    }
  }

  /** A call is allowed: in scope, on the bound uid, within budget and not made before. */
  lemma CallIsAllowed(scene: Scene, c: Course, d: Decision, budget: int)
    requires Equipped(scene) && OnCourse(scene, c) && |c.calls| < budget
    requires d == Decide(scene, c.evidence, InvokedBy(c.calls)) && d.kind.CallTool?
    ensures Allowed(scene, c, d, |c.calls|, budget)
  {
    CallsAreSound(scene, c.evidence, InvokedBy(c.calls));
    CallsAreMissing(scene, c.evidence, InvokedBy(c.calls));
    CallsAreOnTarget(scene, c.evidence, InvokedBy(c.calls));
    if Truthy(UidArgument(d.arguments)) {
      CallsArePod(scene, c.evidence, InvokedBy(c.calls));
    }
    PolicyAllows(scene, c, d, budget);
  }

  ghost predicate Allowed(scene: Scene, c: Course, d: Decision, used: nat, budget: int) {
    && d.tool.Some? && d.tool.value in scene.registry
    && Evaluate(scene.registry[d.tool.value], scene.target, c.uid, used, budget, d.tool.value, d.arguments,
                set p | p in c.calls).Allow?
  }

  lemma PolicyAllows(scene: Scene, c: Course, d: Decision, budget: int)
    requires Equipped(scene) && OnCourse(scene, c) && |c.calls| < budget
    requires d.tool.Some? && d.tool.value in scene.registry && OnTarget(scene, c.evidence, d)
    requires Missing(scene, c.evidence, InvokedBy(c.calls), d.tool.value)
    requires Truthy(UidArgument(d.arguments)) ==> scene.kind.Pod?
    ensures Allowed(scene, c, d, |c.calls|, budget)
  {
    NotCalledBefore(scene, c, d.tool.value);
  }

  lemma NotCalledBefore(scene: Scene, c: Course, tool: string)
    requires OnCourse(scene, c) && Missing(scene, c.evidence, InvokedBy(c.calls), tool)
    ensures forall p | p in c.calls :: p.tool != tool
  {
    ToolNames();
    forall p | p in c.calls ensures p.tool != tool {
      assert p.tool in InvokedBy(c.calls);
    }
  }

  /** Only the pod's course names a uid. */
  lemma CallsArePod(scene: Scene, evidence: seq<Evidence>, invoked: set<string>)
    requires Decide(scene, evidence, invoked).kind.CallTool?
    requires Truthy(UidArgument(Decide(scene, evidence, invoked).arguments))
    ensures scene.kind.Pod?
  {
    QueryScoped(scene, "redis_up", []);
    if scene.kind.Workload? {
      if !(scene.redis && QUERY in scene.registry && QUERY !in invoked) {
        WorkloadArgumentsScoped(scene, evidence, invoked);
      }
    } else if scene.kind.Other? && scene.metric.Some? {
      QueryScoped(scene, scene.metric.value, []);
    }
  }

  lemma OneAnswer(scene: Scene, decide: Decider, c: Course, row: Evidence)
    requires Frugal(scene, decide) && OnCourse(scene, c) && Matching(c, row)
    ensures var c' := Answered(decide, c, row);
            && OnCourse(scene, c')
            && |c'.calls| + Left(scene, c') <= |c.calls| + Left(scene, c)
            && |c'.calls| == |c.calls| + One(Next(decide, c).kind.CallTool?)
  {
    AnswerStaysOnCourse(scene, decide, c, row);
    if Next(decide, c).kind.CallTool? {
      AnswerUsesOneCall(scene, decide, c, row);
    }
  }

  lemma {:induction false} RunBounds(scene: Scene, decide: Decider, cs: seq<Course>, rows: seq<Evidence>, n: nat)
    requires IsRun(decide, cs, rows) && n < |cs| && Frugal(scene, decide) && OnCourse(scene, cs[0])
    ensures OnCourse(scene, cs[n]) && |cs[n].calls| + Left(scene, cs[n]) <= |cs[0].calls| + Left(scene, cs[0])
  {
    if n > 0 {
      RunBounds(scene, decide, cs, rows, n - 1);
      OneAnswer(scene, decide, cs[n - 1], rows[n - 1]);
    }
  }

  /** As long as there are calls, every answer is a call more. */
  lemma {:induction false} CallsCounted(scene: Scene, decide: Decider, cs: seq<Course>, rows: seq<Evidence>, n: nat)
    requires IsRun(decide, cs, rows) && n < |cs| && Frugal(scene, decide)
    requires forall k | 0 <= k < n :: Next(decide, cs[k]).kind.CallTool?
    ensures |cs[n].calls| == |cs[0].calls| + n
  {
    if n > 0 {
      CallsCounted(scene, decide, cs, rows, n - 1);
      AnswerAddsACall(scene, decide, cs[n - 1], rows[n - 1]);
    }
  }

  lemma AnswerAddsACall(scene: Scene, decide: Decider, c: Course, row: Evidence)
    requires Frugal(scene, decide) && Next(decide, c).kind.CallTool?
    ensures |Answered(decide, c, row).calls| == |c.calls| + 1
  {
  }

  lemma NothingLeft(scene: Scene, decide: Decider, c: Course)
    requires Frugal(scene, decide) && Left(scene, c) == 0
    ensures !Next(decide, c).kind.CallTool?
  {
    ToolNames();
  }

  lemma LeftAtStart(scene: Scene, start: Course)
    requires start.calls == [] && OnCourse(scene, start)
    ensures Left(scene, start) <= 5
  {
  }

  lemma FiveCallsEnd(scene: Scene, decide: Decider, cs: seq<Course>, rows: seq<Evidence>)
    requires IsRun(decide, cs, rows) && |rows| == 5 && cs[0].calls == []
    requires Frugal(scene, decide) && OnCourse(scene, cs[0])
    requires forall k | 0 <= k < 5 :: Next(decide, cs[k]).kind.CallTool?
    ensures !Next(decide, cs[5]).kind.CallTool?
  {
    LeftAtStart(scene, cs[0]);
    CallsCounted(scene, decide, cs, rows, 5);
    RunBounds(scene, decide, cs, rows, 5);
    NothingLeft(scene, decide, cs[5]);
  }

  /** A frugal run of five answers has reached its last decision. */
  lemma RunEnds(scene: Scene, decide: Decider, cs: seq<Course>, rows: seq<Evidence>) returns (n: nat)
    requires IsRun(decide, cs, rows) && |rows| == 5 && cs[0].calls == []
    requires Frugal(scene, decide) && OnCourse(scene, cs[0])
    ensures n <= 5 && !Next(decide, cs[n]).kind.CallTool?
    ensures forall k | 0 <= k < n :: Next(decide, cs[k]).kind.CallTool?
  {
    n := 0;
    while n < 5 && Next(decide, cs[n]).kind.CallTool?
      invariant n <= 5
      invariant forall k | 0 <= k < n :: Next(decide, cs[k]).kind.CallTool?
    {
      n := n + 1;
    }
    if n == 5 {
      FiveCallsEnd(scene, decide, cs, rows);
    }
  }

  /** Decision `k` of the run passes validation, and its call, if it is one, the policy. */
  ghost predicate Passes(scene: Scene, text: TextRules, c: Course, d: Decision, k: nat, budget: int) {
    && |c.calls| == k
    && Validate(text, scene.registry, d, Known(c.evidence)).None?
    && (d.kind.CallTool? ==> Allowed(scene, c, d, k, budget))
  }

  /** Evidence rows are stored under distinct ids, and pods report plain uids. */
  predicate Stored(c: Course, harmful: string -> bool) {
    DistinctRows(c.evidence) && forall e | e in c.evidence :: PlainUid(e, harmful)
  }

  lemma DecisionPasses(scene: Scene, text: TextRules, c: Course, k: nat, budget: int, harmful: string -> bool)
    requires Equipped(scene) && OnCourse(scene, c) && |c.calls| == k < budget
    requires Checks(text, harmful) && PlainNames(scene, harmful) && Stored(c, harmful)
    requires !Groundless(scene, c.evidence, InvokedBy(c.calls))
    ensures Passes(scene, text, c, Next(Rules(scene), c), k, budget)
  {
    var d := Next(Rules(scene), c);
    DecisionIsSound(scene, c.evidence, InvokedBy(c.calls));
    DecisionIsAcceptable(scene, text, c.evidence, InvokedBy(c.calls), harmful);
    SoundDecisionsValidate(scene, text, c.evidence, d);
    if d.kind.CallTool? {
      CallIsAllowed(scene, c, d, budget);
    }
  }

  lemma CallPasses(scene: Scene, text: TextRules, c: Course, k: nat, budget: int, harmful: string -> bool)
    requires Equipped(scene) && OnCourse(scene, c) && |c.calls| == k < budget
    requires Checks(text, harmful) && PlainNames(scene, harmful) && Stored(c, harmful)
    requires Next(Rules(scene), c).kind.CallTool?
    ensures Passes(scene, text, c, Next(Rules(scene), c), k, budget)
  {
    var invoked := InvokedBy(c.calls);
    assert Groundless(scene, c.evidence, invoked) ==> Decide(scene, c.evidence, invoked).kind.Complete? by {
      if Groundless(scene, c.evidence, invoked) {
        UnfoundedCitesNothing(scene, c.evidence, invoked);
      }
    }
    DecisionPasses(scene, text, c, k, budget, harmful);
  }

  lemma LastDecisionPasses(scene: Scene, text: TextRules, c: Course, k: nat, budget: int, harmful: string -> bool)
    requires Equipped(scene) && OnCourse(scene, c) && |c.calls| == k < budget
    requires Checks(text, harmful) && PlainNames(scene, harmful) && Stored(c, harmful)
    ensures Validate(text, scene.registry, Next(Rules(scene), c), Known(c.evidence)).None?
            <==> !Groundless(scene, c.evidence, InvokedBy(c.calls))
  {
    if Groundless(scene, c.evidence, InvokedBy(c.calls)) {
      UnfoundedCitesNothing(scene, c.evidence, InvokedBy(c.calls));
    } else {
      DecisionPasses(scene, text, c, k, budget, harmful);
    }
  }

  /**
   * A run on rules alone, whose tools answer with current evidence of the bound resource, ends after
   * at most five calls and six decisions. With names and uids free of executable text no call is
   * refused, neither by validation nor as out of scope, over budget or repeated, and the last decision
   * validates exactly unless it diagnoses a crash with nothing to cite.
   */
  lemma RulesEndWithinSixDecisions(
    scene: Scene, text: TextRules, harmful: string -> bool, cs: seq<Course>, rows: seq<Evidence>, budget: int)
    returns (n: nat)
    requires Equipped(scene) && budget >= 6 && |rows| == 5 && IsRun(Rules(scene), cs, rows)
    requires OnCourse(scene, cs[0]) && cs[0].calls == []
    requires Checks(text, harmful) && PlainNames(scene, harmful) && forall c | c in cs :: Stored(c, harmful)
    ensures n <= 5 && !Next(Rules(scene), cs[n]).kind.CallTool?
    ensures forall k | 0 <= k < n ::
              Next(Rules(scene), cs[k]).kind.CallTool? && Passes(scene, text, cs[k], Next(Rules(scene), cs[k]), k, budget)
    ensures |cs[n].calls| == n
    ensures Validate(text, scene.registry, Next(Rules(scene), cs[n]), Known(cs[n].evidence)).None?
            <==> !Groundless(scene, cs[n].evidence, InvokedBy(cs[n].calls))
  {
    RulesAreFrugal(scene);
    n := RunEnds(scene, Rules(scene), cs, rows);
    forall k | 0 <= k < n ensures Passes(scene, text, cs[k], Next(Rules(scene), cs[k]), k, budget) {
      CallsCounted(scene, Rules(scene), cs, rows, k);
      RunBounds(scene, Rules(scene), cs, rows, k);
      CallPasses(scene, text, cs[k], k, budget, harmful);
    }
    CallsCounted(scene, Rules(scene), cs, rows, n);
    RunBounds(scene, Rules(scene), cs, rows, n);
    LastDecisionPasses(scene, text, cs[n], n, budget, harmful);
  }
}
