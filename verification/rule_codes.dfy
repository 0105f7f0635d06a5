/**
 * What the rules conclude and what they ask for, on the fields of the evidence: one statement per diagnosis
 * code and per tool, for every incident, evidence and history.
 */
module RuleCodes {
  import opened Common
  import opened ContextMemory
  import opened AgentDecision
  import opened AgentDatabase
  import opened RuleReasoner

  // ---- What the last pod status shows ----

  /** `e` is the last row of its kind. */
  ghost predicate LastOfKind(evidence: seq<Evidence>, kind: EvidenceType, e: Evidence) {
    exists k | 0 <= k < |evidence| ::
      evidence[k] == e && e.kind == kind && forall j | k < j < |evidence| :: evidence[j].kind != kind
  }

  ghost predicate ContainerIn(content: Content, fields: Content) {
    && Has(content, "containers") && content["containers"].JArr?
    && JObj(fields) in content["containers"].items
  }

  /** Some container is waiting for this reason, or was last terminated for it. */
  ghost predicate ShowsReason(content: Content, reason: string) {
    exists fields | ContainerIn(content, fields) ::
      Get(fields, "waiting_reason") == Some(JStr(reason)) || Get(fields, "last_terminated_reason") == Some(JStr(reason))
  }

  ghost predicate ShowsWaiting(content: Content, reason: string) {
    exists fields | ContainerIn(content, fields) :: Get(fields, "waiting_reason") == Some(JStr(reason))
  }

  /** Some container restarted after a non-zero exit. */
  ghost predicate ShowsRestart(content: Content) {
    exists fields, restarts, code | ContainerIn(content, fields) ::
      && restarts > 0 && Get(fields, "restart_count") == Some(JNum(restarts))
      && code != 0 && Get(fields, "last_exit_code") == Some(JNum(code))
  }

  ghost predicate OomKilled(content: Content) { ShowsReason(content, "OOMKilled") }

  ghost predicate PullFails(content: Content) {
    ShowsReason(content, "ImagePullBackOff") || ShowsReason(content, "ErrImagePull")
  }

  ghost predicate Crashes(content: Content) { ShowsReason(content, "CrashLoopBackOff") || ShowsRestart(content) }

  /** What the crash diagnosis itself counts as a crash loop. */
  ghost predicate Loops(content: Content) { ShowsWaiting(content, "CrashLoopBackOff") || ShowsRestart(content) }

  ghost predicate Unready(content: Content) { Get(content, "ready") == Some(JBool(false)) }

  /** None of the three faults a container can show. */
  ghost predicate NoFault(content: Content) { !OomKilled(content) && !PullFails(content) && !Crashes(content) }

  lemma ReasonIff(content: Content, reason: string)
    ensures HasReason(Containers(content), reason) <==> ShowsReason(content, reason)
  {
    if ShowsReason(content, reason) {
      var fields :| ContainerIn(content, fields)
        && (Get(fields, "waiting_reason") == Some(JStr(reason))
            || Get(fields, "last_terminated_reason") == Some(JStr(reason)));
      assert JObj(fields) in Containers(content);
    }
    if HasReason(Containers(content), reason) {
      var item :| item in Containers(content)
        && (Field(item, "waiting_reason") == JStr(reason) || Field(item, "last_terminated_reason") == JStr(reason));
      assert item == JObj(item.fields) && ContainerIn(content, item.fields);
    }
  }

  lemma RestartIff(content: Content)
    ensures Restarted(Containers(content)) <==> ShowsRestart(content)
  {
    if ShowsRestart(content) {
      var fields, restarts, code :| ContainerIn(content, fields)
        && restarts > 0 && Get(fields, "restart_count") == Some(JNum(restarts))
        && code != 0 && Get(fields, "last_exit_code") == Some(JNum(code));
      assert JObj(fields) in Containers(content);
    }
    if Restarted(Containers(content)) {
      var item :| item in Containers(content)
        && IntOf(Field(item, "restart_count")) > 0 && IntOf(Field(item, "last_exit_code")) != 0;
      assert item == JObj(item.fields) && ContainerIn(content, item.fields);
      assert Get(item.fields, "restart_count") == Some(JNum(IntOf(Field(item, "restart_count"))));
      assert Get(item.fields, "last_exit_code") == Some(JNum(IntOf(Field(item, "last_exit_code"))));
    }
  }

  lemma LoopIff(content: Content)
    ensures CrashLoop(Containers(content)) <==> Loops(content)
    ensures Loops(content) ==> Crashes(content)
  {
    RestartIff(content);
    if ShowsWaiting(content, "CrashLoopBackOff") {
      var fields :| ContainerIn(content, fields) && Get(fields, "waiting_reason") == Some(JStr("CrashLoopBackOff"));
      assert JObj(fields) in Containers(content);
    }
    if item :| item in Containers(content) && Field(item, "waiting_reason") == JStr("CrashLoopBackOff") {
      assert item == JObj(item.fields) && ContainerIn(content, item.fields);
    }
  }

  lemma StateIff(pod: Evidence)
    ensures StateOf(pod).oom <==> OomKilled(pod.content)
    ensures StateOf(pod).imagePull <==> PullFails(pod.content)
    ensures StateOf(pod).crash <==> Crashes(pod.content)
    ensures StateOf(pod).notReady <==> Unready(pod.content)
  {
    ReasonIff(pod.content, "OOMKilled");
    ReasonIff(pod.content, "ImagePullBackOff");
    ReasonIff(pod.content, "ErrImagePull");
    ReasonIff(pod.content, "CrashLoopBackOff");
    RestartIff(pod.content);
  }

  lemma {:induction false} LastIs(evidence: seq<Evidence>, kind: EvidenceType, e: Evidence)
    requires LastOfKind(evidence, kind, e)
    ensures HasType(evidence, kind) && Last(evidence, kind) == e
  {
    var k :| 0 <= k < |evidence| && evidence[k] == e && e.kind == kind
          && forall j | k < j < |evidence| :: evidence[j].kind != kind;
    var last := |evidence| - 1;
    if k < last {
      assert evidence[..last][k] == e;
      assert LastOfKind(evidence[..last], kind, e);
      LastIs(evidence[..last], kind, e);
    }
  }

  // ---- Pods ----

  /** The facts the codes of a pod are told apart by. */
  lemma PodFacts(scene: Scene, evidence: seq<Evidence>, pod: Evidence)
    requires LastOfKind(evidence, PodStatus, pod)
    ensures HasType(evidence, PodStatus) && Last(evidence, PodStatus) == pod
    ensures var state := StateOf(pod);
            && (state.oom <==> OomKilled(pod.content)) && (state.imagePull <==> PullFails(pod.content))
            && (state.crash <==> Crashes(pod.content)) && (state.notReady <==> Unready(pod.content))
            && (CrashLoop(Containers(pod.content)) <==> Loops(pod.content))
            && (Loops(pod.content) ==> Crashes(pod.content))
  {
    LastIs(evidence, PodStatus, pod);
    StateIff(pod);
    LoopIff(pod.content);
  }

  /** The codes are different strings. */
  lemma CodesDiffer()
    ensures "OOM_KILLED" !in ["IMAGE_PULL_ERROR", "CRASH_LOOP", "POD_NOT_READY", "REDIS_UNAVAILABLE", "UNKNOWN",
                              "POD_PENDING", "READINESS_FAILURE", "HTTP_5XX", "RESOURCE_PRESSURE"]
    ensures "IMAGE_PULL_ERROR" !in ["CRASH_LOOP", "POD_NOT_READY", "REDIS_UNAVAILABLE", "UNKNOWN", "POD_PENDING",
                                    "READINESS_FAILURE", "HTTP_5XX", "RESOURCE_PRESSURE"]
    ensures "CRASH_LOOP" !in ["POD_NOT_READY", "REDIS_UNAVAILABLE", "UNKNOWN", "POD_PENDING", "READINESS_FAILURE",
                              "HTTP_5XX", "RESOURCE_PRESSURE"]
    ensures "POD_NOT_READY" !in ["REDIS_UNAVAILABLE", "UNKNOWN", "POD_PENDING", "READINESS_FAILURE", "HTTP_5XX",
                                 "RESOURCE_PRESSURE"]
    ensures "REDIS_UNAVAILABLE" !in ["UNKNOWN", "POD_PENDING", "READINESS_FAILURE", "HTTP_5XX", "RESOURCE_PRESSURE"]
    ensures "UNKNOWN" !in ["POD_PENDING", "READINESS_FAILURE", "HTTP_5XX", "RESOURCE_PRESSURE"]
    ensures "POD_PENDING" !in ["READINESS_FAILURE", "HTTP_5XX", "RESOURCE_PRESSURE"]
    ensures "READINESS_FAILURE" !in ["HTTP_5XX", "RESOURCE_PRESSURE"] && "HTTP_5XX" != "RESOURCE_PRESSURE"
  {
    assert |"OOM_KILLED"| == 10 && |"IMAGE_PULL_ERROR"| == 16 && |"CRASH_LOOP"| == 10 && |"POD_NOT_READY"| == 13;
    assert |"REDIS_UNAVAILABLE"| == 17 && |"UNKNOWN"| == 7 && |"POD_PENDING"| == 11 && |"READINESS_FAILURE"| == 17;
    assert |"HTTP_5XX"| == 8 && |"RESOURCE_PRESSURE"| == 17;
    assert "OOM_KILLED"[0] == 'O' && "CRASH_LOOP"[0] == 'C' && "REDIS_UNAVAILABLE"[2] == 'D';
    assert "READINESS_FAILURE"[2] == 'A' && "RESOURCE_PRESSURE"[2] == 'S';
  }

  /**
   * A conclusion about a pod, code by code, on its last status: OOM before image pulls before crashes; the
   * crash diagnosis tells a loop, an unready pod and an unavailable Redis apart; only a pod without a fault
   * is pending, unready or judged by its metrics.
   */
  lemma PodCodeIff(scene: Scene, evidence: seq<Evidence>, invoked: set<string>, pod: Evidence)
    requires scene.kind.Pod? && LastOfKind(evidence, PodStatus, pod)
    requires Decide(scene, evidence, invoked).kind.Complete?
    ensures Decide(scene, evidence, invoked).diagnosis.Some?
    ensures var code, c := Decide(scene, evidence, invoked).diagnosis.value.code, pod.content;
            var crashed := Crashes(c) && !OomKilled(c) && !PullFails(c);
            var pending := Get(c, "phase") == Some(JStr("Pending"));
            var metrics := exists e | e in evidence :: e.kind.PrometheusMetrics?;
            && (code == "OOM_KILLED" <==> OomKilled(c))
            && (code == "IMAGE_PULL_ERROR" <==> PullFails(c) && !OomKilled(c))
            && (code == "CRASH_LOOP" <==> crashed && Loops(c))
            && (code == "POD_NOT_READY" <==> crashed && !Loops(c) && Unready(c))
            && (code == "REDIS_UNAVAILABLE" <==> crashed && !Loops(c) && !Unready(c) && scene.redisDown(evidence))
            && (code == "POD_PENDING" <==> NoFault(c) && pending)
            && (code == "READINESS_FAILURE" <==> NoFault(c) && !pending && Unready(c))
            && (code == "HTTP_5XX" <==>
                  NoFault(c) && !pending && !Unready(c) && metrics && scene.metric == Some("http_5xx_rate"))
            && (code == "RESOURCE_PRESSURE" <==>
                  NoFault(c) && !pending && !Unready(c) && metrics && scene.metric != Some("http_5xx_rate"))
            && (code == "UNKNOWN" <==>
                  || (crashed && !Loops(c) && !Unready(c) && !scene.redisDown(evidence))
                  || (NoFault(c) && !pending && !Unready(c) && !metrics))
  {
    PodFacts(scene, evidence, pod);
    PodCode(scene, evidence, invoked, pod);
    CodesDiffer();
  }

  lemma PodCode(scene: Scene, evidence: seq<Evidence>, invoked: set<string>, pod: Evidence)
    requires scene.kind.Pod? && HasType(evidence, PodStatus) && pod == Last(evidence, PodStatus)
    requires Decide(scene, evidence, invoked).kind.Complete?
    ensures Decide(scene, evidence, invoked).diagnosis.Some?
    ensures var code, state := Decide(scene, evidence, invoked).diagnosis.value.code, StateOf(pod);
            var loops := CrashLoop(Containers(pod.content));
            code == if state.oom then "OOM_KILLED"
                    else if state.imagePull then "IMAGE_PULL_ERROR"
                    else if state.crash then
                      (if loops then "CRASH_LOOP"
                       else if state.notReady then "POD_NOT_READY"
                       else if scene.redisDown(evidence) then "REDIS_UNAVAILABLE" else "UNKNOWN")
                    else if Get(pod.content, "phase") == Some(JStr("Pending")) then "POD_PENDING"
                    else if state.notReady then "READINESS_FAILURE"
                    else if !HasType(evidence, PrometheusMetrics) then "UNKNOWN"
                    else if scene.metric == Some("http_5xx_rate") then "HTTP_5XX" else "RESOURCE_PRESSURE"
  {
  }

  /** `id` is that of the last row of its kind. */
  ghost predicate IsLast(evidence: seq<Evidence>, kind: EvidenceType, id: Id) {
    exists e :: LastOfKind(evidence, kind, e) && e.id == id
  }

  lemma {:induction false} LastExists(evidence: seq<Evidence>, kind: EvidenceType)
    requires HasType(evidence, kind)
    ensures LastOfKind(evidence, kind, Last(evidence, kind))
  {
    var last := |evidence| - 1;
    if evidence[last].kind != kind {
      var e :| e in evidence && e.kind == kind;
      assert e in evidence[..last];
      LastExists(evidence[..last], kind);
      var k :| 0 <= k < last && evidence[..last][k] == Last(evidence, kind)
            && forall j | k < j < last :: evidence[..last][j].kind != kind;
      forall j | k < j < |evidence| ensures evidence[j].kind != kind {
        if j < last {
          assert evidence[j] == evidence[..last][j];
        }
      }
      assert evidence[k] == Last(evidence, kind);
    }
  }

  lemma LastIdsIff(evidence: seq<Evidence>, kind: EvidenceType, id: Id)
    ensures id in LastIds(evidence, kind) <==> IsLast(evidence, kind, id)
  {
    if HasType(evidence, kind) {
      LastExists(evidence, kind);
    }
    if e :| LastOfKind(evidence, kind, e) && e.id == id {
      LastIs(evidence, kind, e);
    }
  }

  /** What the citations `ids` of a conclusion about the pod must be. */
  ghost predicate CitesAsShown(scene: Scene, evidence: seq<Evidence>, pod: Evidence, ids: seq<Id>) {
    var c := pod.content;
    var pending := Get(c, "phase") == Some(JStr("Pending"));
    && (OomKilled(c) || PullFails(c) || (NoFault(c) && (pending || Unready(c))) ==>
          CitesKinds(evidence, {PodStatus, PreviousLogs, K8sEvents, ResourceLimits}, ids))
    && (Loops(c) && !OomKilled(c) && !PullFails(c) ==> CitesKinds(evidence, {PodStatus, PreviousLogs, K8sEvents}, ids))
    && (Crashes(c) && !Loops(c) && !OomKilled(c) && !PullFails(c) && Unready(c) ==> ids == [pod.id])
    && (Crashes(c) && !Loops(c) && !OomKilled(c) && !PullFails(c) && !Unready(c) ==>
          forall id :: id in ids <==>
            IsLast(evidence, AlertPayload, id) || (scene.redisDown(evidence) && IsLast(evidence, PrometheusMetrics, id)))
    && (NoFault(c) && !pending && !Unready(c) ==>
          forall id :: id in ids <==> id == pod.id || IsLast(evidence, PrometheusMetrics, id))
  }

  /** Exactly the ids of the rows of these kinds. */
  ghost predicate CitesKinds(evidence: seq<Evidence>, kinds: set<EvidenceType>, ids: seq<Id>) {
    forall id :: id in ids <==> exists e | e in evidence :: e.id == id && e.kind in kinds
  }

  /**
   * Whatever shows the fault is cited: every row of the kinds the code rests on, and nothing else; without a
   * known fault the pod with the last metric, or the last alert with the metric that says Redis is down.
   */
  lemma PodCitationsIff(scene: Scene, evidence: seq<Evidence>, invoked: set<string>, pod: Evidence)
    requires scene.kind.Pod? && LastOfKind(evidence, PodStatus, pod)
    requires Decide(scene, evidence, invoked).kind.Complete?
    ensures CitesAsShown(scene, evidence, pod, Decide(scene, evidence, invoked).evidenceIds)
  {
    PodFacts(scene, evidence, pod);
    PodConcludes(scene, evidence, invoked, pod);
    VerdictCites(scene, evidence, pod, Decide(scene, evidence, invoked).evidenceIds);
  }

  lemma VerdictCites(scene: Scene, evidence: seq<Evidence>, pod: Evidence, ids: seq<Id>)
    requires LastOfKind(evidence, PodStatus, pod)
    requires var verdict := PodVerdict(scene, evidence, pod, StateOf(pod));
             ids == if verdict.Some? then verdict.value.citations else [pod.id] + LastIds(evidence, PrometheusMetrics)
    ensures CitesAsShown(scene, evidence, pod, ids)
  {
    PodFacts(scene, evidence, pod);
    LastCited(evidence, pod.id);
    PodCitations(scene, evidence, pod, StateOf(pod));
    KindsCited(evidence, {PodStatus, PreviousLogs, K8sEvents, ResourceLimits});
    KindsCited(evidence, {PodStatus, PreviousLogs, K8sEvents});
  }

  lemma LastCited(evidence: seq<Evidence>, pod: Id)
    ensures forall id :: id in [pod] + LastIds(evidence, PrometheusMetrics) <==>
                           id == pod || IsLast(evidence, PrometheusMetrics, id)
    ensures forall id :: id in LastIds(evidence, PrometheusMetrics) + LastIds(evidence, AlertPayload) <==>
                           IsLast(evidence, PrometheusMetrics, id) || IsLast(evidence, AlertPayload, id)
    ensures forall id :: id in LastIds(evidence, AlertPayload) <==> IsLast(evidence, AlertPayload, id)
  {
    forall id
      ensures id in LastIds(evidence, PrometheusMetrics) <==> IsLast(evidence, PrometheusMetrics, id)
      ensures id in LastIds(evidence, AlertPayload) <==> IsLast(evidence, AlertPayload, id)
    {
      LastIdsIff(evidence, PrometheusMetrics, id);
      LastIdsIff(evidence, AlertPayload, id);
    }
  }

  lemma KindsCited(evidence: seq<Evidence>, kinds: set<EvidenceType>)
    ensures CitesKinds(evidence, kinds, IdsOf(evidence, kinds))
  {
    forall id ensures id in IdsOf(evidence, kinds) <==> exists e | e in evidence :: e.id == id && e.kind in kinds {
      RowsCited(evidence, kinds, id);
    }
  }

  lemma RowsCited(evidence: seq<Evidence>, kinds: set<EvidenceType>, id: Id)
    ensures id in IdsOf(evidence, kinds) <==> exists e | e in evidence :: e.id == id && e.kind in kinds
  {
  }

  /** A conclusion about a pod is its verdict, or cites the pod when there is none. */
  lemma PodConcludes(scene: Scene, evidence: seq<Evidence>, invoked: set<string>, pod: Evidence)
    requires scene.kind.Pod? && HasType(evidence, PodStatus) && pod == Last(evidence, PodStatus)
    requires Decide(scene, evidence, invoked).kind.Complete?
    ensures var verdict, ids := PodVerdict(scene, evidence, pod, StateOf(pod)), Decide(scene, evidence, invoked).evidenceIds;
            ids == if verdict.Some? then verdict.value.citations else [pod.id] + LastIds(evidence, PrometheusMetrics)
  {
    var d := Decide(scene, evidence, invoked);
    assert d == PodConclusion(scene, evidence, invoked, pod, StateOf(pod));
  }

  lemma PodCitations(scene: Scene, evidence: seq<Evidence>, pod: Evidence, state: PodState)
    ensures var verdict := PodVerdict(scene, evidence, pod, state);
            var loops := CrashLoop(Containers(pod.content));
            var pending := Get(pod.content, "phase") == Some(JStr("Pending"));
            && (state.oom || state.imagePull || (!state.crash && (pending || state.notReady)) ==>
                  verdict.Some?
                  && verdict.value.citations == IdsOf(evidence, {PodStatus, PreviousLogs, K8sEvents, ResourceLimits}))
            && (state.crash && !state.oom && !state.imagePull && loops ==>
                  verdict.Some? && verdict.value.citations == IdsOf(evidence, {PodStatus, PreviousLogs, K8sEvents}))
            && (state.crash && !state.oom && !state.imagePull && !loops && NotReady(pod.content) ==>
                  verdict.Some? && verdict.value.citations == [pod.id])
            && (state.crash && !state.oom && !state.imagePull && !loops && !NotReady(pod.content) ==>
                  verdict.Some?
                  && verdict.value.citations ==
                       (if scene.redisDown(evidence) then LastIds(evidence, PrometheusMetrics) else [])
                       + LastIds(evidence, AlertPayload))
            && (!state.crash && !state.oom && !state.imagePull && !pending && !state.notReady ==> verdict.None?)
  {
  }

  ghost predicate NoRow(evidence: seq<Evidence>, kind: EvidenceType) { forall e | e in evidence :: e.kind != kind }

  lemma NoRowIff(evidence: seq<Evidence>, kind: EvidenceType)
    ensures NoRow(evidence, kind) <==> !HasType(evidence, kind)
  {
  }

  /** What may be asked of Prometheus. */
  predicate MayQuery(scene: Scene, invoked: set<string>) {
    "query_prometheus" in scene.registry && "query_prometheus" !in invoked
  }

  /**
   * What the rules ask about a pod: Redis first when the alert is about it, then the status, the logs of a
   * crash, the events of any fault of a known pod, the limits of an OOM kill, and the alert's metric only
   * of a pod that shows nothing.
   */
  lemma PodCallIff(scene: Scene, evidence: seq<Evidence>, invoked: set<string>, pod: Evidence)
    requires scene.kind.Pod? && LastOfKind(evidence, PodStatus, pod) && !(scene.redis && MayQuery(scene, invoked))
    ensures var d, c := Decide(scene, evidence, invoked), pod.content;
            var logs := (Crashes(c) || OomKilled(c)) && NoRow(evidence, PreviousLogs);
            var events := !logs && (Crashes(c) || OomKilled(c) || PullFails(c) || Unready(c))
                          && NoRow(evidence, K8sEvents) && Has(c, "uid");
            var limits := !logs && !events && OomKilled(c) && NoRow(evidence, ResourceLimits);
            var metric := NoFault(c) && !Unready(c) && Get(c, "phase") != Some(JStr("Pending"))
                          && scene.metric.Some? && MayQuery(scene, invoked);
            && (d.kind.CallTool? <==> logs || events || limits || metric)
            && (logs ==> d.tool == Some("get_previous_logs") && Get(d.arguments, "tail_lines") == Some(JNum(200)))
            && (events ==> d.tool == Some("get_kubernetes_events") && Get(d.arguments, "resource_uid") == Get(c, "uid"))
            && (limits ==> d.tool == Some("get_resource_limits"))
            && (metric ==>
                  d.tool == Some("query_prometheus") && Get(d.arguments, "query_name") == Some(JStr(scene.metric.value)))
            && (d.kind.CallTool? ==> d.evidenceIds == [pod.id])
            && (!d.kind.CallTool? ==> d.kind.Complete?)
  {
    PodFacts(scene, evidence, pod);
    NoRowIff(evidence, PreviousLogs);
    NoRowIff(evidence, K8sEvents);
    NoRowIff(evidence, ResourceLimits);
    PodCalls(scene, evidence, invoked, pod);
  }

  lemma PodCalls(scene: Scene, evidence: seq<Evidence>, invoked: set<string>, pod: Evidence)
    requires scene.kind.Pod? && HasType(evidence, PodStatus) && pod == Last(evidence, PodStatus)
    requires !(scene.redis && MayQuery(scene, invoked))
    ensures var d, state, c := Decide(scene, evidence, invoked), StateOf(pod), pod.content;
            var logs := (state.crash || state.oom) && !HasType(evidence, PreviousLogs);
            var events := !logs && (state.crash || state.oom || state.imagePull || state.notReady)
                          && !HasType(evidence, K8sEvents) && Has(c, "uid");
            var limits := !logs && !events && state.oom && !HasType(evidence, ResourceLimits);
            var metric := !state.crash && !state.oom && !state.imagePull && !state.notReady
                          && Get(c, "phase") != Some(JStr("Pending")) && scene.metric.Some? && MayQuery(scene, invoked);
            && (d.kind.CallTool? <==> logs || events || limits || metric)
            && (logs ==> d.tool == Some("get_previous_logs") && Get(d.arguments, "tail_lines") == Some(JNum(200)))
            && (events ==> d.tool == Some("get_kubernetes_events") && Get(d.arguments, "resource_uid") == Get(c, "uid"))
            && (limits ==> d.tool == Some("get_resource_limits"))
            && (metric ==>
                  d.tool == Some("query_prometheus") && Get(d.arguments, "query_name") == Some(JStr(scene.metric.value)))
            && (d.kind.CallTool? ==> d.evidenceIds == [pod.id])
            && (!d.kind.CallTool? ==> d.kind.Complete?)
  {
    assert |"query_name"| == 10 && |"resource_name"| == 13;
  }

  // ---- Everything else ----

  /** Before anything is known of a pod or workload its status is read; Redis is asked about first. */
  lemma FirstCallIff(scene: Scene, evidence: seq<Evidence>, invoked: set<string>)
    ensures var d, first := Decide(scene, evidence, invoked), scene.redis && MayQuery(scene, invoked);
            && (first ==> d.tool == Some("query_prometheus") && Get(d.arguments, "query_name") == Some(JStr("redis_up")))
            && (!first && scene.kind.Pod? && NoRow(evidence, PodStatus) ==> d.tool == Some("get_pod_status"))
            && (!first && scene.kind.Workload? && NoRow(evidence, WorkloadStatus) ==> d.tool == Some("get_workload_status"))
  {
    NoRowIff(evidence, PodStatus);
    NoRowIff(evidence, WorkloadStatus);
    assert |"query_name"| == 10 && |"resource_name"| == 13;
  }

  /** A workload's pods are listed once, if they can be; then it is unavailable, citing its rows. */
  lemma WorkloadDecisionIff(scene: Scene, evidence: seq<Evidence>, invoked: set<string>, id: Id)
    requires scene.kind.Workload? && !NoRow(evidence, WorkloadStatus) && !(scene.redis && MayQuery(scene, invoked))
    ensures var d := Decide(scene, evidence, invoked);
            var list := "list_related_pods" in scene.registry && "list_related_pods" !in invoked;
            && (d.kind.CallTool? <==> list) && (list ==> d.tool == Some("list_related_pods"))
            && (!list ==>
                  && d.kind.Complete? && d.diagnosis.Some? && d.diagnosis.value.code == "DEPLOYMENT_UNAVAILABLE"
                  && (id in d.evidenceIds <==>
                        exists e | e in evidence :: e.id == id && e.kind in {WorkloadStatus, PodStatus}))
  {
    NoRowIff(evidence, WorkloadStatus);
    RowsCited(evidence, {WorkloadStatus, PodStatus}, id);
  }

  /** Of any other resource only a metric is read; without one a human is asked, with all there is. */
  lemma OtherDecisionIff(scene: Scene, evidence: seq<Evidence>, invoked: set<string>, id: Id)
    requires scene.kind.Other? && !(scene.redis && MayQuery(scene, invoked))
    ensures var d, metrics := Decide(scene, evidence, invoked), !NoRow(evidence, PrometheusMetrics);
            && (d.kind.Complete? <==> metrics)
            && (metrics ==>
                  d.diagnosis.Some?
                  && d.diagnosis.value.code == if scene.redis then "REDIS_UNAVAILABLE" else "RESOURCE_PRESSURE")
            && (d.kind.CallTool? <==> !metrics && scene.metric.Some? && MayQuery(scene, invoked))
            && (d.kind.CallTool? ==>
                  d.tool == Some("query_prometheus") && Get(d.arguments, "query_name") == Some(JStr(scene.metric.value)))
            && (!d.kind.Complete? && !d.kind.CallTool? ==>
                  d.kind.AskHuman? && d.stopReason == Some("INSUFFICIENT_EVIDENCE")
                  && (id in d.evidenceIds <==> exists e | e in evidence :: e.id == id))
  {
    NoRowIff(evidence, PrometheusMetrics);
    assert |"query_name"| == 10 && |"resource_name"| == 13;
    var d := Decide(scene, evidence, invoked);
    if d.kind.AskHuman? {
      assert forall k | 0 <= k < |evidence| :: d.evidenceIds[k] == evidence[k].id;
      if e :| e in evidence && e.id == id {
        var k :| 0 <= k < |evidence| && evidence[k] == e;
        assert d.evidenceIds[k] == id;
      }
    }
  }

  /** A verdict on the pod's own state is never about a metric. */
  lemma VerdictIsNoMetric(scene: Scene, evidence: seq<Evidence>, pod: Evidence, state: PodState)
    ensures var verdict := PodVerdict(scene, evidence, pod, state);
            verdict.Some? ==> verdict.value.code !in {"RESOURCE_PRESSURE", "HTTP_5XX"}
  {
    CodesDiffer();
  }

  lemma PodMetricCited(scene: Scene, evidence: seq<Evidence>, invoked: set<string>)
    requires scene.kind.Pod? && HasType(evidence, PrometheusMetrics) && Decide(scene, evidence, invoked).kind.Complete?
    requires var d := Decide(scene, evidence, invoked);
             d.diagnosis.Some? && d.diagnosis.value.code in {"RESOURCE_PRESSURE", "HTTP_5XX"}
    ensures Last(evidence, PrometheusMetrics).id in Decide(scene, evidence, invoked).evidenceIds
  {
    var d, pod := Decide(scene, evidence, invoked), Last(evidence, PodStatus);
    VerdictIsNoMetric(scene, evidence, pod, StateOf(pod));
    assert d == PodConclusion(scene, evidence, invoked, pod, StateOf(pod));
    assert PodVerdict(scene, evidence, pod, StateOf(pod)).None?;
    assert Last(evidence, PrometheusMetrics).id in [pod.id, Last(evidence, PrometheusMetrics).id];
  }

  /** A conclusion of the rules about a metric cites the last one read. */
  lemma MetricCited(scene: Scene, evidence: seq<Evidence>, invoked: set<string>, metric: Evidence)
    requires LastOfKind(evidence, PrometheusMetrics, metric) && Decide(scene, evidence, invoked).kind.Complete?
    requires var d := Decide(scene, evidence, invoked);
             d.diagnosis.Some? && d.diagnosis.value.code in {"RESOURCE_PRESSURE", "HTTP_5XX"}
    ensures metric.id in Decide(scene, evidence, invoked).evidenceIds
  {
    LastIs(evidence, PrometheusMetrics, metric);
    if scene.kind.Pod? {
      PodMetricCited(scene, evidence, invoked);
    }
    assert |"DEPLOYMENT_UNAVAILABLE"| == 22 && |"RESOURCE_PRESSURE"| == 17 && |"HTTP_5XX"| == 8;
  }
}
