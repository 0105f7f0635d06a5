/** State machines of the domain entities (app/ops_agent/domain.py). */
module Domain {

  datatype IncidentStatus =
    | Open | Diagnosing | Diagnosed | PlanReady | AwaitingApproval
    | Remediating | Verifying | Resolved | Closed | Failed

  datatype TaskStatus = Todo | InProgress | Blocked | Done | Cancelled

  datatype PlanStatus =
    | Draft | DryRunReady | AwaitingApproval | Approved | Executable | Executed | Rejected | Cancelled

  datatype ExecutionStatus = Prepared | Running | Succeeded | Failed | VerificationFailed | RolledBack

  datatype RunStatus =
    | Queued | Running | Collecting | Diagnosing
    | Completed | AwaitingHuman | Stopped | Failed | Cancelled

  /** A status of any entity; the constructor tells which state machine it belongs to. */
  datatype Status =
    | OfIncident(incident: IncidentStatus)
    | OfTask(task: TaskStatus)
    | OfPlan(plan: PlanStatus)
    | OfExecution(execution: ExecutionStatus)
    | OfRun(run: RunStatus)

  function IncidentEdges(s: IncidentStatus): set<IncidentStatus> {
    match s
    case Open => {IncidentStatus.Diagnosing, IncidentStatus.Verifying, IncidentStatus.Closed}
    case Diagnosing =>
      {IncidentStatus.Diagnosed, IncidentStatus.Failed, IncidentStatus.Verifying, IncidentStatus.Closed}
    case Diagnosed =>
      {IncidentStatus.PlanReady, IncidentStatus.Diagnosing, IncidentStatus.Verifying, IncidentStatus.Closed}
    case PlanReady =>
      {IncidentStatus.AwaitingApproval, IncidentStatus.Diagnosed, IncidentStatus.Verifying, IncidentStatus.Closed}
    case AwaitingApproval =>
      {IncidentStatus.Remediating, IncidentStatus.Diagnosed, IncidentStatus.Verifying, IncidentStatus.Closed}
    case Remediating => {IncidentStatus.Verifying, IncidentStatus.Failed}
    case Verifying => {IncidentStatus.Resolved, IncidentStatus.Failed}
    case Resolved => {IncidentStatus.Closed}
    case Failed => {IncidentStatus.Diagnosing, IncidentStatus.Verifying, IncidentStatus.Closed}
    case Closed => {}
  }

  function TaskEdges(s: TaskStatus): set<TaskStatus> {
    match s
    case Todo => {TaskStatus.InProgress, TaskStatus.Blocked, TaskStatus.Cancelled}
    case InProgress => {TaskStatus.Done, TaskStatus.Blocked, TaskStatus.Cancelled}
    case Blocked => {TaskStatus.InProgress, TaskStatus.Cancelled}
    case Done => {}
    case Cancelled => {}
  }

  function PlanEdges(s: PlanStatus): set<PlanStatus> {
    match s
    case Draft => {PlanStatus.DryRunReady, PlanStatus.Cancelled}
    case DryRunReady => {PlanStatus.AwaitingApproval, PlanStatus.Cancelled}
    case AwaitingApproval => {PlanStatus.Approved, PlanStatus.Rejected, PlanStatus.Cancelled}
    case Approved => {PlanStatus.Executable, PlanStatus.Cancelled}
    case Executable => {PlanStatus.Executed}
    case Executed => {}
    case Rejected => {}
    case Cancelled => {}
  }

  function ExecutionEdges(s: ExecutionStatus): set<ExecutionStatus> {
    match s
    case Prepared => {ExecutionStatus.Running, ExecutionStatus.Failed}
    case Running => {ExecutionStatus.Succeeded, ExecutionStatus.Failed}
    case Succeeded => {ExecutionStatus.VerificationFailed}
    case Failed => {ExecutionStatus.RolledBack}
    case VerificationFailed => {ExecutionStatus.RolledBack}
    case RolledBack => {}
  }

  function RunEdges(s: RunStatus): set<RunStatus> {
    match s
    case Queued => {RunStatus.Running, RunStatus.Collecting, RunStatus.Failed, RunStatus.Cancelled}
    case Running =>
      {RunStatus.Completed, RunStatus.AwaitingHuman, RunStatus.Stopped, RunStatus.Failed, RunStatus.Cancelled}
    case Collecting => {RunStatus.Diagnosing, RunStatus.Failed}
    case Diagnosing => {RunStatus.Completed, RunStatus.Failed}
    case Completed => {}
    case AwaitingHuman => {RunStatus.Cancelled}
    case Stopped => {}
    case Failed => {}
    case Cancelled => {}
  }

  /** `validate_transition`: an edge of one state machine; statuses of different machines never match. */
  predicate ValidTransition(current: Status, target: Status) {
    match (current, target)
    case (OfIncident(a), OfIncident(b)) => b in IncidentEdges(a)
    case (OfTask(a), OfTask(b)) => b in TaskEdges(a)
    case (OfPlan(a), OfPlan(b)) => b in PlanEdges(a)
    case (OfExecution(a), OfExecution(b)) => b in ExecutionEdges(a)
    case (OfRun(a), OfRun(b)) => b in RunEdges(a)
    case _ => false
  }

  /** The statuses the agent loop treats as finished. */
  predicate TerminalRun(s: RunStatus) {
    s.Completed? || s.AwaitingHuman? || s.Stopped? || s.Failed? || s.Cancelled?
  }

  /** An active run is one a worker is expected to be working on. */
  predicate ActiveRun(s: RunStatus) { s.Running? || s.Collecting? || s.Diagnosing? }

  /** An incident the fingerprint index counts as active. */
  predicate ActiveIncident(s: IncidentStatus) { !s.Resolved? && !s.Closed? }

  /** A path of transitions through `path`, starting at `from`. */
  predicate Path(from: Status, path: seq<Status>)
    decreases |path|
  {
    path == [] || (ValidTransition(from, path[0]) && Path(path[0], path[1..]))
  }

  /** Progress of an execution, rising along every edge. */
  function ExecutionRank(s: ExecutionStatus): nat {
    match s
    case Prepared => 0
    case Running => 1
    case Succeeded => 2
    case Failed => 3
    case VerificationFailed => 3
    case RolledBack => 4
  }

  /** Along any path no execution returns to an earlier stage: RUNNING is entered at most once. */
  lemma {:induction false} ExecutionNeverRestarts(from: ExecutionStatus, path: seq<Status>, i: nat)
    requires Path(OfExecution(from), path) && i < |path|
    ensures path[i].OfExecution? && ExecutionRank(path[i].execution) > ExecutionRank(from)
    decreases |path|
  {
    if i > 0 {
      ExecutionNeverRestarts(path[0].execution, path[1..], i - 1);
    }
  }

  /** Along any path an incident that left the active statuses never becomes active again. */
  lemma {:induction false} InactiveIncidentStaysInactive(from: IncidentStatus, path: seq<Status>, i: nat)
    requires !ActiveIncident(from) && Path(OfIncident(from), path) && i < |path|
    ensures path[i].OfIncident? && !ActiveIncident(path[i].incident)
    decreases |path|
  {
    if i > 0 {
      InactiveIncidentStaysInactive(path[0].incident, path[1..], i - 1);
    }
  }
}
