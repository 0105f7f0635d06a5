/**
 * The tables behind remediation and the transactions that change them (app/ops_agent/services.py,
 * recovery.py and the run transactions of agent_core.py). Each transaction is one
 * `session_factory.begin()` block; Err is an exception, after which nothing was written.
 * Row ids are positions; every status write is appended to `log`.
 */
module OpsDatabase {
  import opened Common
  import opened Domain

  type Id = nat

  datatype Entity =
    | AnIncident(id: Id) | ATask(id: Id) | APlan(id: Id) | AnExecution(id: Id) | ARun(id: Id)

  datatype Write = Write(entity: Entity, to: Status)

  datatype TaskType = ManualCheck | Approval | Verification | FollowUp | OtherTask

  datatype TaskRow = TaskRow(incident: Id, kind: TaskType, related: Option<Entity>, status: TaskStatus)

  /** The pod a plan restarts; `workload` is filled in by the dry run. */
  datatype PodTarget = PodTarget(namespace: string, podName: string, podUid: string, workload: Option<Workload>)

  datatype Workload = Workload(kind: string, name: string)

  datatype Inspection = Inspection(exists_: bool, uid: string, workload: Workload, abnormal: bool)

  /** The outcome of a dry run, with the target and the namespaces it was judged on. */
  datatype DryRun = DryRun(allowed: bool, target: PodTarget, namespaces: set<string>, inspection: Option<Inspection>)

  datatype PlanRow = PlanRow(incident: Id, target: PodTarget, dryRun: Option<DryRun>, status: PlanStatus)

  datatype ExecutionRow = ExecutionRow(plan: Id, key: string, startedAt: Option<int>, status: ExecutionStatus)

  datatype RunRow = RunRow(incident: Id, startedAt: Option<int>, status: RunStatus)

  datatype Db = Db(
    incidents: seq<IncidentStatus>,
    tasks: seq<TaskRow>,
    plans: seq<PlanRow>,
    executions: seq<ExecutionRow>,
    runs: seq<RunRow>,
    log: seq<Write>,
    now: int)

  datatype Error = NotFound | InvalidTransition | ValidationFailed | KeyTaken

  // ---- Status writes ----

  function SetIncident(db: Db, i: Id, to: IncidentStatus): Db
    requires i < |db.incidents|
  {
    db.(incidents := db.incidents[i := to], log := db.log + [Write(AnIncident(i), OfIncident(to))])
  }

  function SetTask(db: Db, t: Id, to: TaskStatus): Db
    requires t < |db.tasks|
  {
    db.(tasks := db.tasks[t := db.tasks[t].(status := to)], log := db.log + [Write(ATask(t), OfTask(to))])
  }

  function SetPlan(db: Db, p: Id, to: PlanStatus): Db
    requires p < |db.plans|
  {
    db.(plans := db.plans[p := db.plans[p].(status := to)], log := db.log + [Write(APlan(p), OfPlan(to))])
  }

  function SetExecution(db: Db, x: Id, to: ExecutionStatus): Db
    requires x < |db.executions|
  {
    db.(executions := db.executions[x := db.executions[x].(status := to)],
        log := db.log + [Write(AnExecution(x), OfExecution(to))])
  }

  function SetRun(db: Db, r: Id, to: RunStatus): Db
    requires r < |db.runs|
  {
    db.(runs := db.runs[r := db.runs[r].(status := to)], log := db.log + [Write(ARun(r), OfRun(to))])
  }

  // ---- Status writes behind validate_transition ----

  function MoveIncident(db: Db, i: Id, to: IncidentStatus): Result<Db, Error>
    requires i < |db.incidents|
  {
    if to in IncidentEdges(db.incidents[i]) then Ok(SetIncident(db, i, to)) else Err(InvalidTransition)
  }

  function MoveTask(db: Db, t: Id, to: TaskStatus): Result<Db, Error>
    requires t < |db.tasks|
  {
    if to in TaskEdges(db.tasks[t].status) then Ok(SetTask(db, t, to)) else Err(InvalidTransition)
  }

  function MovePlan(db: Db, p: Id, to: PlanStatus): Result<Db, Error>
    requires p < |db.plans|
  {
    if to in PlanEdges(db.plans[p].status) then Ok(SetPlan(db, p, to)) else Err(InvalidTransition)
  }

  function MoveExecution(db: Db, x: Id, to: ExecutionStatus): Result<Db, Error>
    requires x < |db.executions|
  {
    if to in ExecutionEdges(db.executions[x].status) then Ok(SetExecution(db, x, to)) else Err(InvalidTransition)
  }

  function MoveRun(db: Db, r: Id, to: RunStatus): Result<Db, Error>
    requires r < |db.runs|
  {
    if to in RunEdges(db.runs[r].status) then Ok(SetRun(db, r, to)) else Err(InvalidTransition)
  }

  // ---- References ----

  /** Foreign keys. */
  predicate RefsOk(db: Db) {
    && (forall t | 0 <= t < |db.tasks| :: db.tasks[t].incident < |db.incidents|)
    && (forall p | 0 <= p < |db.plans| :: db.plans[p].incident < |db.incidents|)
    && (forall x | 0 <= x < |db.executions| :: db.executions[x].plan < |db.plans|)
    && (forall r | 0 <= r < |db.runs| :: db.runs[r].incident < |db.incidents|)
  }

  function IncidentOf(db: Db, x: Id): Id
    requires RefsOk(db) && x < |db.executions|
    ensures IncidentOf(db, x) < |db.incidents|
  {
    db.plans[db.executions[x].plan].incident
  }

  predicate OpenTask(s: TaskStatus) { s.Todo? || s.InProgress? || s.Blocked? }

  /** A task row a query for `related`, possibly within one incident, may return. */
  predicate Matches(
    task: TaskRow, incident: Option<Id>, related: Entity, kinds: set<TaskType>, statuses: set<TaskStatus>)
  {
    && (incident.Some? ==> task.incident == incident.value)
    && task.related == Some(related) && task.kind in kinds && task.status in statuses
  }

  /** `found` is what an unordered query may return: some matching task, or None when there is none. */
  predicate Found(
    db: Db, found: Option<Id>, incident: Option<Id>, related: Entity, kinds: set<TaskType>, statuses: set<TaskStatus>)
  {
    match found
    case Some(t) => t < |db.tasks| && Matches(db.tasks[t], incident, related, kinds, statuses)
    case None => forall t | 0 <= t < |db.tasks| :: !Matches(db.tasks[t], incident, related, kinds, statuses)
  }

  predicate AnyOpenTask(db: Db, incident: Option<Id>, related: Entity) {
    exists t | 0 <= t < |db.tasks| ::
      && (incident.Some? ==> db.tasks[t].incident == incident.value)
      && db.tasks[t].related == Some(related) && OpenTask(db.tasks[t].status)
  }

  function AddTask(db: Db, i: Id, kind: TaskType, related: Option<Entity>): Db {
    db.(tasks := db.tasks + [TaskRow(i, kind, related, Todo)])
  }

  // ---- Incidents, tasks and runs ----

  function AddIncident(db: Db): Db { db.(incidents := db.incidents + [Open]) }

  function CreateTask(db: Db, i: Id, kind: TaskType, related: Option<Entity>): Result<Db, Error> {
    if i >= |db.incidents| then Err(NotFound) else Ok(AddTask(db, i, kind, related))
  }

  function TransitionTask(db: Db, t: Id, to: TaskStatus): Result<Db, Error> {
    if t >= |db.tasks| then Err(NotFound) else MoveTask(db, t, to)
  }

  function CreateRun(db: Db, i: Id): Result<Db, Error> {
    if i >= |db.incidents| then Err(NotFound) else Ok(db.(runs := db.runs + [RunRow(i, None, Queued)]))
  }

  function StartRun(db: Db, r: Id): Db
    requires r < |db.runs|
  {
    db.(runs := db.runs[r := db.runs[r].(startedAt := Some(db.now))])
  }

  /** The first claim of a queued run by `_claim`. */
  function ClaimRun(db: Db, r: Id): Db
    requires RefsOk(db) && r < |db.runs|
  {
    if !db.runs[r].status.Queued? then db
    else
      var i := db.runs[r].incident;
      var started := StartRun(SetRun(db, r, RunStatus.Running), r);
      if db.incidents[i].Open? || db.incidents[i].Failed? || db.incidents[i].Diagnosed?
      then SetIncident(started, i, IncidentStatus.Diagnosing) else started
  }

  /** An incident under diagnosis moves on, without validation. */
  function LeaveDiagnosis(db: Db, i: Id, to: IncidentStatus): Db
    requires i < |db.incidents|
  {
    if db.incidents[i].Diagnosing? then SetIncident(db, i, to) else db
  }

  /** `_finish`. */
  function FinishRun(db: Db, r: Id, to: RunStatus): Db
    requires RefsOk(db) && r < |db.runs|
  {
    if TerminalRun(db.runs[r].status) then db
    else
      var i := db.runs[r].incident;
      var ended := SetRun(db, r, to);
      var left := LeaveDiagnosis(ended, i, if to.Completed? then Diagnosed else IncidentStatus.Failed);
      if to.AwaitingHuman? && !AnyOpenTask(db, Some(i), ARun(r)) then AddTask(left, i, ManualCheck, Some(ARun(r))) else left
  }

  /** `request_cancel`, for the status. */
  function RequestCancel(db: Db, r: Id): Result<Db, Error> {
    if r >= |db.runs| then Err(NotFound)
    else if db.runs[r].status.Queued? then Ok(SetRun(db, r, RunStatus.Cancelled))
    else Ok(db)
  }

  /** The first transaction of `process_diagnosis` without the agent core. */
  function BeginDiagnosis(db: Db, r: Id): Result<Db, Error>
    requires RefsOk(db)
  {
    if r >= |db.runs| then Err(NotFound)
    else
      var i := db.runs[r].incident;
      var moved :- MoveRun(db, r, Collecting);
      if db.incidents[i].Open? || db.incidents[i].Failed?
      then MoveIncident(StartRun(moved, r), i, IncidentStatus.Diagnosing) else Ok(StartRun(moved, r))
  }

  /** Its last transaction. */
  function EndDiagnosis(db: Db, r: Id): Result<Db, Error>
    requires RefsOk(db)
  {
    if r >= |db.runs| then Err(NotFound)
    else
      var i := db.runs[r].incident;
      var diagnosing :- MoveRun(db, r, RunStatus.Diagnosing);
      var completed :- MoveRun(diagnosing, r, Completed);
      if db.incidents[i].Diagnosing? then MoveIncident(completed, i, Diagnosed) else Ok(completed)
  }

  /** `fail_agent_run`. */
  function FailRun(db: Db, r: Id): Result<Db, Error>
    requires RefsOk(db)
  {
    if r >= |db.runs| then Err(NotFound)
    else
      var i := db.runs[r].incident;
      var failed :- if TerminalRun(db.runs[r].status) then Ok(db) else MoveRun(db, r, RunStatus.Failed);
      if db.incidents[i].Diagnosing? then MoveIncident(failed, i, IncidentStatus.Failed) else Ok(failed)
  }

  // ---- Plans ----

  /** `create_plan`; `wellFormed` stands for the checks of its request. */
  function CreatePlan(db: Db, i: Id, target: PodTarget, wellFormed: bool): Result<Db, Error> {
    if !wellFormed then Err(ValidationFailed)
    else if i >= |db.incidents| then Err(NotFound)
    else if !db.incidents[i].Diagnosed? then Err(InvalidTransition)
    else MoveIncident(db.(plans := db.plans + [PlanRow(i, target, None, Draft)]), i, PlanReady)
  }

  const SYSTEM_NAMESPACES := {"kube-system", "kube-public", "kube-node-lease"}
  const ALLOWED_WORKLOADS := {"Deployment", "StatefulSet"}

  predicate NamespaceAllowed(target: PodTarget, namespaces: set<string>) {
    target.namespace in namespaces && target.namespace !in SYSTEM_NAMESPACES
  }

  predicate DryRunAllows(target: PodTarget, inspection: Inspection, namespaces: set<string>) {
    && NamespaceAllowed(target, namespaces)
    && inspection.exists_ && inspection.uid == target.podUid
    && inspection.workload.kind in ALLOWED_WORKLOADS && inspection.abnormal
  }

  /** `dry_run_plan`; a denial is committed before it is raised. */
  function DryRunPlan(db: Db, p: Id, inspection: Inspection, namespaces: set<string>): Result<Db, Error>
    requires RefsOk(db)
  {
    if p >= |db.plans| then Err(NotFound)
    else if !db.plans[p].status.Draft? then Err(InvalidTransition)
    else
      var i, target := db.plans[p].incident, db.plans[p].target;
      if DryRunAllows(target, inspection, namespaces) then
        var row := db.plans[p].(dryRun := Some(DryRun(true, target, namespaces, Some(inspection))),
                                target := target.(workload := Some(inspection.workload)));
        var ready :- MovePlan(db.(plans := db.plans[p := row]), p, DryRunReady);
        var waiting :- MovePlan(ready, p, PlanStatus.AwaitingApproval);
        var moved :- MoveIncident(waiting, i, IncidentStatus.AwaitingApproval);
        Ok(AddTask(moved, i, Approval, Some(APlan(p))))
      else
        var row := db.plans[p].(dryRun := Some(DryRun(false, target, namespaces,
                                              if NamespaceAllowed(target, namespaces) then Some(inspection) else None)));
        var cancelled :- MovePlan(db.(plans := db.plans[p := row]), p, PlanStatus.Cancelled);
        MoveIncident(cancelled, i, Diagnosed)
  }

  /** `approve_plan`; `task` is the approval task its query returned. */
  function ApprovePlan(db: Db, p: Id, task: Option<Id>): Result<Db, Error>
    requires task.Some? ==> task.value < |db.tasks|
  {
    if p >= |db.plans| then Err(NotFound)
    else
      var approved :- MovePlan(db, p, Approved);
      var executable :- MovePlan(approved, p, Executable);
      if task.None? then Ok(executable)
      else
        var begun :- if db.tasks[task.value].status.Todo? then MoveTask(executable, task.value, InProgress)
                     else Ok(executable);
        MoveTask(begun, task.value, Done)
  }

  /** `reject_plan`. */
  function RejectPlan(db: Db, p: Id, task: Option<Id>): Result<Db, Error>
    requires RefsOk(db) && (task.Some? ==> task.value < |db.tasks|)
  {
    if p >= |db.plans| then Err(NotFound)
    else
      var rejected :- MovePlan(db, p, Rejected);
      var moved :- MoveIncident(rejected, db.plans[p].incident, Diagnosed);
      if task.None? then Ok(moved) else MoveTask(moved, task.value, TaskStatus.Cancelled)
  }

  // ---- Executions ----

  /** The insert of `create_execution`; the key is unique. */
  function CreateExecution(db: Db, p: Id, key: string): Result<Db, Error> {
    if p >= |db.plans| then Err(NotFound)
    else if !db.plans[p].status.Executable? then Err(InvalidTransition)
    else if exists x | 0 <= x < |db.executions| :: db.executions[x].key == key then Err(KeyTaken)
    else Ok(db.(executions := db.executions + [ExecutionRow(p, key, None, Prepared)]))
  }

  /** The first transaction of `process_execution`. */
  function BeginExecution(db: Db, x: Id): Result<Db, Error>
    requires RefsOk(db)
  {
    if x >= |db.executions| then Err(NotFound)
    else
      var moved :- MoveExecution(db, x, ExecutionStatus.Running);
      var started := moved.(executions := moved.executions[x := moved.executions[x].(startedAt := Some(db.now))]);
      MoveIncident(started, IncidentOf(db, x), Remediating)
  }

  /** After `delete_pod` raised. */
  function RecordFailure(db: Db, x: Id): Result<Db, Error>
    requires RefsOk(db) && x < |db.executions|
  {
    var failed :- MoveExecution(db, x, ExecutionStatus.Failed);
    var moved :- MoveIncident(failed, IncidentOf(db, x), IncidentStatus.Failed);
    Ok(AddTask(moved, IncidentOf(db, x), FollowUp, Some(AnExecution(x))))
  }

  /** After `delete_pod` returned. */
  function RecordSuccess(db: Db, x: Id): Result<Db, Error>
    requires RefsOk(db) && x < |db.executions|
  {
    var succeeded :- MoveExecution(db, x, Succeeded);
    var executed :- MovePlan(succeeded, db.executions[x].plan, Executed);
    MoveIncident(executed, IncidentOf(db, x), Verifying)
  }

  /** After the recovery check. */
  function RecordVerification(db: Db, x: Id, healthy: bool): Result<Db, Error>
    requires RefsOk(db) && x < |db.executions|
  {
    if healthy then MoveIncident(db, IncidentOf(db, x), Resolved)
    else
      var failed :- MoveExecution(db, x, VerificationFailed);
      var moved :- MoveIncident(failed, IncidentOf(db, x), IncidentStatus.Failed);
      Ok(AddTask(moved, IncidentOf(db, x), Verification, Some(AnExecution(x))))
  }

  /** An incident under remediation fails, without validation. */
  function LeaveRemediation(db: Db, i: Id): Db
    requires i < |db.incidents|
  {
    if db.incidents[i].Remediating? || db.incidents[i].Verifying?
    then SetIncident(db, i, IncidentStatus.Failed) else db
  }

  function EndExecution(db: Db, x: Id): Result<Db, Error>
    requires x < |db.executions|
  {
    match db.executions[x].status
    case Succeeded => MoveExecution(db, x, VerificationFailed)
    case Failed => Ok(db)
    case VerificationFailed => Ok(db)
    case RolledBack => Ok(db)
    case _ => MoveExecution(db, x, ExecutionStatus.Failed)
  }

  /** `fail_execution`. */
  function FailExecution(db: Db, x: Id): Result<Db, Error>
    requires RefsOk(db)
  {
    if x >= |db.executions| then Err(NotFound)
    else
      var i := IncidentOf(db, x);
      var ended :- EndExecution(db, x);
      var moved := LeaveRemediation(ended, i);
      Ok(if AnyOpenTask(db, None, AnExecution(x)) then moved else AddTask(moved, i, Verification, Some(AnExecution(x))))
  }

  // ---- Recovery reported by an alert ----

  /** The first transaction of `resolve_incident_from_alert`, for the incident its query found. */
  function ReceiveResolved(db: Db, i: Id): Result<Db, Error>
    requires i < |db.incidents|
  {
    if !ActiveIncident(db.incidents[i]) then Err(NotFound)
    else if db.incidents[i].Verifying? then Ok(db)
    else MoveIncident(db, i, Verifying)
  }

  /** Its second transaction; `task` is the verification task its query returned. */
  function ResolveIncident(db: Db, i: Id, healthy: bool, task: Option<Id>): Result<Db, Error>
    requires i < |db.incidents| && (task.Some? ==> task.value < |db.tasks|)
  {
    if healthy then
      var resolved :- MoveIncident(db, i, Resolved);
      if task.None? then Ok(resolved)
      else
        var begun :- if db.tasks[task.value].status.Todo? || db.tasks[task.value].status.Blocked?
                     then MoveTask(resolved, task.value, InProgress) else Ok(resolved);
        MoveTask(begun, task.value, Done)
    else
      var failed :- MoveIncident(db, i, IncidentStatus.Failed);
      Ok(if task.Some? then failed else AddTask(failed, i, Verification, Some(AnIncident(i))))
  }

  // ---- The timeout sweep ----

  predicate RunDue(db: Db, r: Id, cutoff: int) {
    && r < |db.runs| && ActiveRun(db.runs[r].status)
    && db.runs[r].startedAt.Some? && db.runs[r].startedAt.value <= cutoff
  }

  predicate ExecutionDue(db: Db, x: Id, cutoff: int) {
    && x < |db.executions| && db.executions[x].status.Running?
    && db.executions[x].startedAt.Some? && db.executions[x].startedAt.value <= cutoff
  }

  predicate Below(ids: seq<Id>, n: nat) { forall k | 0 <= k < |ids| :: ids[k] < n }

  /** One run of the sweep. */
  function RecoverRun(db: Db, r: Id): Db
    requires RefsOk(db) && r < |db.runs|
  {
    var i, core := db.runs[r].incident, db.runs[r].status.Running?;
    var ended := SetRun(db, r, if core then Stopped else RunStatus.Failed);
    var left := LeaveDiagnosis(ended, i, IncidentStatus.Failed);
    if core then AddTask(left, i, ManualCheck, Some(ARun(r))) else left
  }

  /** One execution of the sweep. */
  function RecoverExecution(db: Db, x: Id): Db
    requires RefsOk(db) && x < |db.executions|
  {
    var i := IncidentOf(db, x);
    AddTask(LeaveRemediation(SetExecution(db, x, ExecutionStatus.Failed), i), i, Verification, Some(AnExecution(x)))
  }

  function RecoverRuns(db: Db, rs: seq<Id>): (swept: Db)
    requires RefsOk(db) && Below(rs, |db.runs|)
    ensures RefsOk(swept) && |swept.runs| == |db.runs| && |swept.executions| == |db.executions|
    decreases |rs|
  {
    if rs == [] then db
    else
      var last := |rs| - 1;
      RecoverRun(RecoverRuns(db, rs[..last]), rs[last])
  }

  function RecoverExecutions(db: Db, xs: seq<Id>): (swept: Db)
    requires RefsOk(db) && Below(xs, |db.executions|)
    ensures RefsOk(swept) && |swept.runs| == |db.runs| && |swept.executions| == |db.executions|
    decreases |xs|
  {
    if xs == [] then db
    else
      var last := |xs| - 1;
      RecoverExecution(RecoverExecutions(db, xs[..last]), xs[last])
  }

  /** `recover_stuck_work_once` over the rows its queries returned. */
  function Recover(db: Db, rs: seq<Id>, xs: seq<Id>): Db
    requires RefsOk(db) && Below(rs, |db.runs|) && Below(xs, |db.executions|)
  {
    RecoverExecutions(RecoverRuns(db, rs), xs)
  }
}
