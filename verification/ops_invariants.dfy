/** What every transaction of OpsDatabase keeps. */
module OpsInvariants {
  import opened Common
  import opened Domain
  import opened OpsDatabase

  // ---- The log explains every status ----

  predicate Exists(db: Db, e: Entity) {
    match e
    case AnIncident(i) => i < |db.incidents|
    case ATask(t) => t < |db.tasks|
    case APlan(p) => p < |db.plans|
    case AnExecution(x) => x < |db.executions|
    case ARun(r) => r < |db.runs|
  }

  function StatusOf(db: Db, e: Entity): Status
    requires Exists(db, e)
  {
    match e
    case AnIncident(i) => OfIncident(db.incidents[i])
    case ATask(t) => OfTask(db.tasks[t].status)
    case APlan(p) => OfPlan(db.plans[p].status)
    case AnExecution(x) => OfExecution(db.executions[x].status)
    case ARun(r) => OfRun(db.runs[r].status)
  }

  /** The status of a new row. */
  function Initial(e: Entity): Status {
    match e
    case AnIncident(_) => OfIncident(Open)
    case ATask(_) => OfTask(Todo)
    case APlan(_) => OfPlan(Draft)
    case AnExecution(_) => OfExecution(Prepared)
    case ARun(_) => OfRun(Queued)
  }

  /** The statuses written to `e`, in order. */
  function HistoryOf(log: seq<Write>, e: Entity): seq<Status> {
    if log == [] then []
    else
      var last := |log| - 1;
      HistoryOf(log[..last], e) + (if log[last].entity == e then [log[last].to] else [])
  }

  function LastOf(from: Status, path: seq<Status>): Status {
    if path == [] then from else path[|path| - 1]
  }

  /** Every write to `e` was an edge of its state machine, and its status is the last one written. */
  ghost predicate Explained(db: Db, e: Entity) {
    var history := HistoryOf(db.log, e);
    if Exists(db, e) then Path(Initial(e), history) && LastOf(Initial(e), history) == StatusOf(db, e)
    else history == []
  }

  ghost predicate LogOk(db: Db) { forall e :: Explained(db, e) }

  lemma {:induction false} PathThen(from: Status, path: seq<Status>, to: Status)
    requires Path(from, path) && ValidTransition(LastOf(from, path), to)
    ensures Path(from, path + [to])
    decreases |path|
  {
    if path == [] {
      assert [to][1..] == [];
    } else {
      assert (path + [to])[1..] == path[1..] + [to];
      PathThen(path[0], path[1..], to);
    }
  }

  /** Writing one status along an edge. */
  lemma WriteKeepsLog(db: Db, db': Db, e: Entity, to: Status)
    requires LogOk(db) && Exists(db, e) && ValidTransition(StatusOf(db, e), to)
    requires db'.log == db.log + [Write(e, to)]
    requires forall f :: Exists(db', f) == Exists(db, f)
    requires forall f | Exists(db, f) :: StatusOf(db', f) == if f == e then to else StatusOf(db, f)
    ensures LogOk(db')
  {
    assert db'.log[..|db.log|] == db.log;
    forall f ensures Explained(db', f) {
      assert Explained(db, f);
      assert HistoryOf(db.log, f) + [] == HistoryOf(db.log, f);
      if f == e {
        PathThen(Initial(e), HistoryOf(db.log, e), to);
      }
    }
  }

  /** Adding rows in their initial status, or changing other columns. */
  lemma InsertKeepsLog(db: Db, db': Db)
    requires LogOk(db) && db'.log == db.log
    requires forall f | Exists(db, f) :: Exists(db', f) && StatusOf(db', f) == StatusOf(db, f)
    requires forall f | Exists(db', f) && !Exists(db, f) :: StatusOf(db', f) == Initial(f)
    ensures LogOk(db')
  {
    forall f ensures Explained(db', f) {
      assert Explained(db, f);
    }
  }

  lemma SetIncidentLog(db: Db, i: Id, to: IncidentStatus)
    requires LogOk(db) && i < |db.incidents| && to in IncidentEdges(db.incidents[i])
    ensures LogOk(SetIncident(db, i, to))
  {
    WriteKeepsLog(db, SetIncident(db, i, to), AnIncident(i), OfIncident(to));
  }

  lemma SetTaskLog(db: Db, t: Id, to: TaskStatus)
    requires LogOk(db) && t < |db.tasks| && to in TaskEdges(db.tasks[t].status)
    ensures LogOk(SetTask(db, t, to))
  {
    WriteKeepsLog(db, SetTask(db, t, to), ATask(t), OfTask(to));
  }

  lemma SetPlanLog(db: Db, p: Id, to: PlanStatus)
    requires LogOk(db) && p < |db.plans| && to in PlanEdges(db.plans[p].status)
    ensures LogOk(SetPlan(db, p, to))
  {
    WriteKeepsLog(db, SetPlan(db, p, to), APlan(p), OfPlan(to));
  }

  lemma SetExecutionLog(db: Db, x: Id, to: ExecutionStatus)
    requires LogOk(db) && x < |db.executions| && to in ExecutionEdges(db.executions[x].status)
    ensures LogOk(SetExecution(db, x, to))
  {
    WriteKeepsLog(db, SetExecution(db, x, to), AnExecution(x), OfExecution(to));
  }

  lemma SetRunLog(db: Db, r: Id, to: RunStatus)
    requires LogOk(db) && r < |db.runs| && to in RunEdges(db.runs[r].status)
    ensures LogOk(SetRun(db, r, to))
  {
    WriteKeepsLog(db, SetRun(db, r, to), ARun(r), OfRun(to));
  }

  lemma AddTaskLog(db: Db, i: Id, kind: TaskType, related: Option<Entity>)
    requires LogOk(db)
    ensures LogOk(AddTask(db, i, kind, related))
  {
    InsertKeepsLog(db, AddTask(db, i, kind, related));
  }

  // ---- No work without an owner ----

  ghost predicate HasRun(db: Db, i: Id) {
    exists r | 0 <= r < |db.runs| :: db.runs[r].incident == i && ActiveRun(db.runs[r].status)
  }

  ghost predicate HasExecution(db: Db, i: Id)
    requires RefsOk(db)
  {
    exists x | 0 <= x < |db.executions| :: db.executions[x].status.Running? && IncidentOf(db, x) == i
  }

  /** A DIAGNOSING incident has an active run. */
  ghost predicate DiagnosingOwned(db: Db) {
    forall i | 0 <= i < |db.incidents| && db.incidents[i].Diagnosing? :: HasRun(db, i)
  }

  /** A REMEDIATING incident has a RUNNING execution. */
  ghost predicate RemediatingOwned(db: Db)
    requires RefsOk(db)
  {
    forall i | 0 <= i < |db.incidents| && db.incidents[i].Remediating? :: HasExecution(db, i)
  }

  ghost predicate HasPlan(db: Db, i: Id, statuses: set<PlanStatus>) {
    exists p | 0 <= p < |db.plans| :: db.plans[p].incident == i && db.plans[p].status in statuses
  }

  /** Somebody can still dry-run, decide or execute a plan of this incident when its status says so. */
  ghost predicate PlannedAt(db: Db, i: Id)
    requires i < |db.incidents|
  {
    && (db.incidents[i].PlanReady? ==> HasPlan(db, i, {Draft}))
    && (db.incidents[i].AwaitingApproval? ==> HasPlan(db, i, {PlanStatus.AwaitingApproval, Executable}))
  }

  ghost predicate Planned(db: Db) { forall i | 0 <= i < |db.incidents| :: PlannedAt(db, i) }

  /** What is active has a start time, so that the sweep can see it. */
  predicate Timed(db: Db) {
    && (forall r | 0 <= r < |db.runs| && ActiveRun(db.runs[r].status) :: db.runs[r].startedAt.Some?)
    && (forall x | 0 <= x < |db.executions| && db.executions[x].status.Running? :: db.executions[x].startedAt.Some?)
  }

  // ---- Plans and executions ----

  predicate SamePod(a: PodTarget, b: PodTarget) {
    a.namespace == b.namespace && a.podName == b.podName && a.podUid == b.podUid
  }

  /** An allowed dry run, and the same pod since. */
  predicate Cleared(plan: PlanRow) {
    && plan.dryRun.Some? && plan.dryRun.value.allowed && plan.dryRun.value.inspection.Some?
    && DryRunAllows(plan.dryRun.value.target, plan.dryRun.value.inspection.value, plan.dryRun.value.namespaces)
    && SamePod(plan.target, plan.dryRun.value.target)
  }

  predicate PastDryRun(s: PlanStatus) {
    s.DryRunReady? || s.AwaitingApproval? || s.Approved? || s.Executable? || s.Executed?
  }

  predicate Settled(s: ExecutionStatus) { s.Succeeded? || s.VerificationFailed? }

  /** Executions only exist for plans that were cleared, approved and made executable; keys are unique. */
  predicate Authorised(db: Db)
    requires RefsOk(db)
  {
    && (forall p | 0 <= p < |db.plans| && PastDryRun(db.plans[p].status) :: Cleared(db.plans[p]))
    && (forall x | 0 <= x < |db.executions| ::
          db.plans[db.executions[x].plan].status.Executable? || db.plans[db.executions[x].plan].status.Executed?)
    && (forall x, y | 0 <= x < y < |db.executions| :: db.executions[x].key != db.executions[y].key)
  }

  ghost predicate HasOutcome(db: Db, p: Id) {
    exists x | 0 <= x < |db.executions| :: db.executions[x].plan == p && Settled(db.executions[x].status)
  }

  /** A plan is EXECUTED exactly when one of its executions succeeded (or failed verification), and then one did. */
  ghost predicate Accounted(db: Db)
    requires RefsOk(db)
  {
    && (forall p | 0 <= p < |db.plans| :: db.plans[p].status.Executed? <==> HasOutcome(db, p))
    && (forall x, y | 0 <= x < y < |db.executions|
                      && Settled(db.executions[x].status) && Settled(db.executions[y].status) ::
          db.executions[x].plan != db.executions[y].plan)
  }

  ghost predicate Consistent(db: Db) {
    RefsOk(db) && DiagnosingOwned(db) && RemediatingOwned(db) && Planned(db) && Timed(db) && Authorised(db) && Accounted(db)
  }

  ghost predicate Inv(db: Db) { LogOk(db) && Consistent(db) }

  // ---- Every transaction: the log ----

  lemma ClaimRunLog(db: Db, r: Id)
    requires LogOk(db) && RefsOk(db) && r < |db.runs|
    ensures LogOk(ClaimRun(db, r))
  {
    if db.runs[r].status.Queued? {
      var running := SetRun(db, r, RunStatus.Running);
      SetRunLog(db, r, RunStatus.Running);
      InsertKeepsLog(running, StartRun(running, r));
      var i := db.runs[r].incident;
      if db.incidents[i].Open? || db.incidents[i].Failed? || db.incidents[i].Diagnosed? {
        SetIncidentLog(StartRun(running, r), i, IncidentStatus.Diagnosing);
      }
    }
  }

  /** `_finish` validates nothing; its writes are edges because only a RUNNING run is finished. */
  lemma FinishRunLog(db: Db, r: Id, to: RunStatus)
    requires LogOk(db) && RefsOk(db) && r < |db.runs| && TerminalRun(to)
    requires db.runs[r].status.Running? || TerminalRun(db.runs[r].status)
    ensures LogOk(FinishRun(db, r, to))
  {
    if db.runs[r].status.Running? {
      var i, ended := db.runs[r].incident, SetRun(db, r, to);
      var next := if to.Completed? then Diagnosed else IncidentStatus.Failed;
      SetRunLog(db, r, to);
      LeaveDiagnosisLog(ended, i, next);
      AddTaskLog(LeaveDiagnosis(ended, i, next), i, ManualCheck, Some(ARun(r)));
    }
  }

  lemma RequestCancelLog(db: Db, r: Id)
    requires LogOk(db) && RequestCancel(db, r).Ok?
    ensures LogOk(RequestCancel(db, r).value)
  {
    if db.runs[r].status.Queued? {
      SetRunLog(db, r, RunStatus.Cancelled);
    }
  }

  lemma BeginDiagnosisLog(db: Db, r: Id)
    requires LogOk(db) && RefsOk(db) && BeginDiagnosis(db, r).Ok?
    ensures LogOk(BeginDiagnosis(db, r).value)
  {
    var i, moved := db.runs[r].incident, SetRun(db, r, Collecting);
    SetRunLog(db, r, Collecting);
    InsertKeepsLog(moved, StartRun(moved, r));
    if db.incidents[i].Open? || db.incidents[i].Failed? {
      SetIncidentLog(StartRun(moved, r), i, IncidentStatus.Diagnosing);
    }
  }

  lemma EndDiagnosisLog(db: Db, r: Id)
    requires LogOk(db) && RefsOk(db) && EndDiagnosis(db, r).Ok?
    ensures LogOk(EndDiagnosis(db, r).value)
  {
    var i, diagnosing := db.runs[r].incident, SetRun(db, r, RunStatus.Diagnosing);
    SetRunLog(db, r, RunStatus.Diagnosing);
    SetRunLog(diagnosing, r, Completed);
    if db.incidents[i].Diagnosing? {
      SetIncidentLog(SetRun(diagnosing, r, Completed), i, Diagnosed);
    }
  }

  lemma FailRunLog(db: Db, r: Id)
    requires LogOk(db) && RefsOk(db) && FailRun(db, r).Ok?
    ensures LogOk(FailRun(db, r).value)
  {
    var i := db.runs[r].incident;
    var failed := if TerminalRun(db.runs[r].status) then db else SetRun(db, r, RunStatus.Failed);
    if !TerminalRun(db.runs[r].status) {
      SetRunLog(db, r, RunStatus.Failed);
    }
    if db.incidents[i].Diagnosing? {
      SetIncidentLog(failed, i, IncidentStatus.Failed);
    }
  }

  lemma CreatePlanLog(db: Db, i: Id, target: PodTarget, wellFormed: bool)
    requires LogOk(db) && CreatePlan(db, i, target, wellFormed).Ok?
    ensures LogOk(CreatePlan(db, i, target, wellFormed).value)
  {
    var added := db.(plans := db.plans + [PlanRow(i, target, None, Draft)]);
    InsertKeepsLog(db, added);
    SetIncidentLog(added, i, PlanReady);
  }

  lemma DryRunPlanLog(db: Db, p: Id, inspection: Inspection, namespaces: set<string>)
    requires LogOk(db) && RefsOk(db) && DryRunPlan(db, p, inspection, namespaces).Ok?
    ensures LogOk(DryRunPlan(db, p, inspection, namespaces).value)
  {
    var i, target := db.plans[p].incident, db.plans[p].target;
    if DryRunAllows(target, inspection, namespaces) {
      var row := db.plans[p].(dryRun := Some(DryRun(true, target, namespaces, Some(inspection))),
                              target := target.(workload := Some(inspection.workload)));
      var written := db.(plans := db.plans[p := row]);
      InsertKeepsLog(db, written);
      SetPlanLog(written, p, DryRunReady);
      var ready := SetPlan(written, p, DryRunReady);
      SetPlanLog(ready, p, PlanStatus.AwaitingApproval);
      var waiting := SetPlan(ready, p, PlanStatus.AwaitingApproval);
      SetIncidentLog(waiting, i, IncidentStatus.AwaitingApproval);
      AddTaskLog(SetIncident(waiting, i, IncidentStatus.AwaitingApproval), i, Approval, Some(APlan(p)));
    } else {
      var row := db.plans[p].(dryRun := Some(DryRun(false, target, namespaces,
                                              if NamespaceAllowed(target, namespaces) then Some(inspection) else None)));
      var written := db.(plans := db.plans[p := row]);
      InsertKeepsLog(db, written);
      SetPlanLog(written, p, PlanStatus.Cancelled);
      SetIncidentLog(SetPlan(written, p, PlanStatus.Cancelled), i, Diagnosed);
    }
  }

  /** Closing a task in one or two steps. */
  lemma CloseTaskLog(db: Db, t: Id, first: bool)
    requires LogOk(db) && t < |db.tasks|
    requires first ==> InProgress in TaskEdges(db.tasks[t].status)
    requires !first ==> Done in TaskEdges(db.tasks[t].status)
    ensures first ==> LogOk(SetTask(SetTask(db, t, InProgress), t, Done))
    ensures !first ==> LogOk(SetTask(db, t, Done))
  {
    if first {
      SetTaskLog(db, t, InProgress);
      SetTaskLog(SetTask(db, t, InProgress), t, Done);
    } else {
      SetTaskLog(db, t, Done);
    }
  }

  lemma ApprovePlanLog(db: Db, p: Id, task: Option<Id>)
    requires LogOk(db) && (task.Some? ==> task.value < |db.tasks|) && ApprovePlan(db, p, task).Ok?
    ensures LogOk(ApprovePlan(db, p, task).value)
  {
    var approved := SetPlan(db, p, Approved);
    var executable := SetPlan(approved, p, Executable);
    SetPlanLog(db, p, Approved);
    SetPlanLog(approved, p, Executable);
    if task.Some? {
      CloseTaskLog(executable, task.value, db.tasks[task.value].status.Todo?);
    }
  }

  lemma RejectPlanLog(db: Db, p: Id, task: Option<Id>)
    requires LogOk(db) && RefsOk(db) && (task.Some? ==> task.value < |db.tasks|) && RejectPlan(db, p, task).Ok?
    ensures LogOk(RejectPlan(db, p, task).value)
  {
    var rejected := SetPlan(db, p, Rejected);
    var moved := SetIncident(rejected, db.plans[p].incident, Diagnosed);
    SetPlanLog(db, p, Rejected);
    SetIncidentLog(rejected, db.plans[p].incident, Diagnosed);
    if task.Some? {
      SetTaskLog(moved, task.value, TaskStatus.Cancelled);
    }
  }

  lemma BeginExecutionLog(db: Db, x: Id)
    requires LogOk(db) && RefsOk(db) && BeginExecution(db, x).Ok?
    ensures LogOk(BeginExecution(db, x).value)
  {
    var moved := SetExecution(db, x, ExecutionStatus.Running);
    var started := moved.(executions := moved.executions[x := moved.executions[x].(startedAt := Some(db.now))]);
    SetExecutionLog(db, x, ExecutionStatus.Running);
    InsertKeepsLog(moved, started);
    SetIncidentLog(started, IncidentOf(db, x), Remediating);
  }

  lemma RecordFailureLog(db: Db, x: Id)
    requires LogOk(db) && RefsOk(db) && x < |db.executions| && RecordFailure(db, x).Ok?
    ensures LogOk(RecordFailure(db, x).value)
  {
    var i, failed := IncidentOf(db, x), SetExecution(db, x, ExecutionStatus.Failed);
    SetExecutionLog(db, x, ExecutionStatus.Failed);
    SetIncidentLog(failed, i, IncidentStatus.Failed);
    AddTaskLog(SetIncident(failed, i, IncidentStatus.Failed), i, FollowUp, Some(AnExecution(x)));
  }

  lemma RecordSuccessLog(db: Db, x: Id)
    requires LogOk(db) && RefsOk(db) && x < |db.executions| && RecordSuccess(db, x).Ok?
    ensures LogOk(RecordSuccess(db, x).value)
  {
    var p, succeeded := db.executions[x].plan, SetExecution(db, x, Succeeded);
    SetExecutionLog(db, x, Succeeded);
    SetPlanLog(succeeded, p, Executed);
    SetIncidentLog(SetPlan(succeeded, p, Executed), IncidentOf(db, x), Verifying);
  }

  lemma RecordVerificationLog(db: Db, x: Id, healthy: bool)
    requires LogOk(db) && RefsOk(db) && x < |db.executions| && RecordVerification(db, x, healthy).Ok?
    ensures LogOk(RecordVerification(db, x, healthy).value)
  {
    var i := IncidentOf(db, x);
    if healthy {
      SetIncidentLog(db, i, Resolved);
    } else {
      var failed := SetExecution(db, x, VerificationFailed);
      SetExecutionLog(db, x, VerificationFailed);
      SetIncidentLog(failed, i, IncidentStatus.Failed);
      AddTaskLog(SetIncident(failed, i, IncidentStatus.Failed), i, Verification, Some(AnExecution(x)));
    }
  }

  lemma LeaveRemediationLog(db: Db, i: Id)
    requires LogOk(db) && i < |db.incidents|
    ensures LogOk(LeaveRemediation(db, i))
  {
    if db.incidents[i].Remediating? || db.incidents[i].Verifying? {
      SetIncidentLog(db, i, IncidentStatus.Failed);
    }
  }

  lemma LeaveDiagnosisLog(db: Db, i: Id, to: IncidentStatus)
    requires LogOk(db) && i < |db.incidents| && (to.Diagnosed? || to.Failed?)
    ensures LogOk(LeaveDiagnosis(db, i, to))
  {
    if db.incidents[i].Diagnosing? {
      SetIncidentLog(db, i, to);
    }
  }

  lemma EndExecutionLog(db: Db, x: Id)
    requires LogOk(db) && x < |db.executions| && EndExecution(db, x).Ok?
    ensures LogOk(EndExecution(db, x).value)
  {
    match db.executions[x].status
    case Succeeded => SetExecutionLog(db, x, VerificationFailed);
    case Prepared => SetExecutionLog(db, x, ExecutionStatus.Failed);
    case Running => SetExecutionLog(db, x, ExecutionStatus.Failed);
    case _ =>
  }

  lemma FailExecutionLog(db: Db, x: Id)
    requires LogOk(db) && RefsOk(db) && FailExecution(db, x).Ok?
    ensures LogOk(FailExecution(db, x).value)
  {
    var i, ended := IncidentOf(db, x), EndExecution(db, x).value;
    EndExecutionLog(db, x);
    LeaveRemediationLog(ended, i);
    AddTaskLog(LeaveRemediation(ended, i), i, Verification, Some(AnExecution(x)));
  }

  lemma ResolveIncidentLog(db: Db, i: Id, healthy: bool, task: Option<Id>)
    requires LogOk(db) && i < |db.incidents| && (task.Some? ==> task.value < |db.tasks|)
    requires ResolveIncident(db, i, healthy, task).Ok?
    ensures LogOk(ResolveIncident(db, i, healthy, task).value)
  {
    var to := if healthy then Resolved else IncidentStatus.Failed;
    SetIncidentLog(db, i, to);
    if healthy && task.Some? {
      CloseTaskLog(SetIncident(db, i, to), task.value,
                   db.tasks[task.value].status.Todo? || db.tasks[task.value].status.Blocked?);
    }
    AddTaskLog(SetIncident(db, i, to), i, Verification, Some(AnIncident(i)));
  }

  /** The sweep validates nothing either. */
  lemma RecoverRunLog(db: Db, r: Id)
    requires LogOk(db) && RefsOk(db) && r < |db.runs| && ActiveRun(db.runs[r].status)
    ensures LogOk(RecoverRun(db, r))
  {
    var i, core := db.runs[r].incident, db.runs[r].status.Running?;
    var ended := SetRun(db, r, if core then Stopped else RunStatus.Failed);
    SetRunLog(db, r, if core then Stopped else RunStatus.Failed);
    LeaveDiagnosisLog(ended, i, IncidentStatus.Failed);
    AddTaskLog(LeaveDiagnosis(ended, i, IncidentStatus.Failed), i, ManualCheck, Some(ARun(r)));
  }

  lemma RecoverExecutionLog(db: Db, x: Id)
    requires LogOk(db) && RefsOk(db) && x < |db.executions| && db.executions[x].status.Running?
    ensures LogOk(RecoverExecution(db, x))
  {
    var i, ended := IncidentOf(db, x), SetExecution(db, x, ExecutionStatus.Failed);
    SetExecutionLog(db, x, ExecutionStatus.Failed);
    LeaveRemediationLog(ended, i);
    AddTaskLog(LeaveRemediation(ended, i), i, Verification, Some(AnExecution(x)));
  }
}
