/**
 * API requests, queue workers, alerts and the recovery sweep acting on the tables of OpsDatabase in
 * any order: jobs delivered any number of times, workers that die anywhere, and a cluster that may
 * refuse or fail.
 */
module Remediation {
  import opened Common
  import opened Domain
  import opened OpsDatabase
  import D = OpsDatabase

  type WorkerId = nat

  /** Where a worker is between two transactions. */
  datatype Pc =
    | Idle
    | Investigating(run: Id)
    | CollectingFor(run: Id)
    | Deleting(execution: Id, target: PodTarget)
    | DeleteRaised(execution: Id)
    | DeleteReturned(execution: Id)
    | VerifyingRecovery(execution: Id)
    | VerifyingAlert(incident: Id)

  /** One invocation of `delete_pod`. */
  datatype Deletion = Deletion(execution: Id, target: PodTarget)

  datatype World = World(db: Db, workers: map<WorkerId, Pc>, deletions: seq<Deletion>)

  datatype Action =
    | AddIncident
    | CreateTask(incident: Id, kind: TaskType, related: Option<Entity>)
    | TransitionTask(task: Id, to: TaskStatus)
    | CreateRun(incident: Id)
    | RequestCancel(run: Id)
    | ClaimRun(w: WorkerId, run: Id)
    | FinishRun(w: WorkerId, status: RunStatus)
    | BeginDiagnosis(w: WorkerId, run: Id)
    | EndDiagnosis(w: WorkerId)
    | FailRun(run: Id)
    | CreatePlan(incident: Id, target: PodTarget, wellFormed: bool)
    | DryRunPlan(plan: Id, inspection: Inspection, namespaces: set<string>)
    | ApprovePlan(plan: Id, found: Option<Id>)
    | RejectPlan(plan: Id, found: Option<Id>)
    | CreateExecution(plan: Id, key: string)
    | BeginExecution(w: WorkerId, execution: Id)
    | DeletePod(w: WorkerId, raised: bool)
    | RecordFailure(w: WorkerId)
    | RecordSuccess(w: WorkerId)
    | RecordVerification(w: WorkerId, healthy: bool)
    | FailExecution(execution: Id)
    | ReceiveResolved(w: WorkerId, incident: Id)
    | ResolveIncident(w: WorkerId, healthy: bool, found: Option<Id>)
    | Recover(runs: seq<Id>, executions: seq<Id>, runCutoff: int, executionCutoff: int)
    | Die(w: WorkerId)
    | Tick(now: int)

  function PcOf(s: World, w: WorkerId): Pc { if w in s.workers then s.workers[w] else Idle }

  function Goto(s: World, w: WorkerId, pc: Pc): World { s.(workers := s.workers[w := pc]) }

  /** A request: a refused one changes nothing. */
  function Request(s: World, r: Result<Db, Error>): World { if r.Ok? then s.(db := r.value) else s }

  /** A transaction of worker `w`: an exception ends its job. */
  function Job(s: World, w: WorkerId, r: Result<Db, Error>, next: Pc): World {
    if r.Ok? then Goto(s.(db := r.value), w, next) else Goto(s, w, Idle)
  }

  predicate Distinct(ids: seq<Id>) { forall i, j | 0 <= i < j < |ids| :: ids[i] != ids[j] }

  /** Rows the sweep's queries may return; locked ones are skipped. */
  predicate Sweepable(db: Db, rs: seq<Id>, xs: seq<Id>, runCutoff: int, executionCutoff: int) {
    && Distinct(rs) && Distinct(xs)
    && (forall k | 0 <= k < |rs| :: RunDue(db, rs[k], runCutoff))
    && (forall k | 0 <= k < |xs| :: ExecutionDue(db, xs[k], executionCutoff))
  }

  // ---- Steps of workers ----

  function StepClaimRun(s: World, w: WorkerId, r: Id): Option<World>
    requires RefsOk(s.db)
  {
    if !PcOf(s, w).Idle? || r >= |s.db.runs| then None
    else
      var claimed := D.ClaimRun(s.db, r);
      Some(Goto(s.(db := claimed), w, if claimed.runs[r].status.Running? then Investigating(r) else Idle))
  }

  function StepFinishRun(s: World, w: WorkerId, to: RunStatus): Option<World>
    requires RefsOk(s.db)
  {
    match PcOf(s, w)
    case Investigating(r) =>
      if r >= |s.db.runs| || !TerminalRun(to) then None
      else Some(Goto(s.(db := D.FinishRun(s.db, r, to)), w, Idle))
    case _ => None
  }

  function StepBeginDiagnosis(s: World, w: WorkerId, r: Id): Option<World>
    requires RefsOk(s.db)
  {
    if !PcOf(s, w).Idle? then None else Some(Job(s, w, D.BeginDiagnosis(s.db, r), CollectingFor(r)))
  }

  function StepEndDiagnosis(s: World, w: WorkerId): Option<World>
    requires RefsOk(s.db)
  {
    match PcOf(s, w)
    case CollectingFor(r) => Some(Job(s, w, D.EndDiagnosis(s.db, r), Idle))
    case _ => None
  }

  function StepBeginExecution(s: World, w: WorkerId, x: Id): Option<World>
    requires RefsOk(s.db)
  {
    if !PcOf(s, w).Idle? then None
    else
      var begun := D.BeginExecution(s.db, x);
      Some(Job(s, w, begun, if begun.Ok? then Deleting(x, s.db.plans[s.db.executions[x].plan].target) else Idle))
  }

  function StepDeletePod(s: World, w: WorkerId, raised: bool): Option<World> {
    match PcOf(s, w)
    case Deleting(x, target) =>
      Some(Goto(s.(deletions := s.deletions + [Deletion(x, target)]), w,
                if raised then DeleteRaised(x) else DeleteReturned(x)))
    case _ => None
  }

  function StepRecordFailure(s: World, w: WorkerId): Option<World>
    requires RefsOk(s.db)
  {
    match PcOf(s, w)
    case DeleteRaised(x) => if x >= |s.db.executions| then None else Some(Job(s, w, D.RecordFailure(s.db, x), Idle))
    case _ => None
  }

  function StepRecordSuccess(s: World, w: WorkerId): Option<World>
    requires RefsOk(s.db)
  {
    match PcOf(s, w)
    case DeleteReturned(x) =>
      if x >= |s.db.executions| then None else Some(Job(s, w, D.RecordSuccess(s.db, x), VerifyingRecovery(x)))
    case _ => None
  }

  function StepRecordVerification(s: World, w: WorkerId, healthy: bool): Option<World>
    requires RefsOk(s.db)
  {
    match PcOf(s, w)
    case VerifyingRecovery(x) =>
      if x >= |s.db.executions| then None else Some(Job(s, w, D.RecordVerification(s.db, x, healthy), Idle))
    case _ => None
  }

  function StepReceiveResolved(s: World, w: WorkerId, i: Id): Option<World> {
    if !PcOf(s, w).Idle? || i >= |s.db.incidents| then None
    else Some(Job(s, w, D.ReceiveResolved(s.db, i), VerifyingAlert(i)))
  }

  function StepResolveIncident(s: World, w: WorkerId, healthy: bool, found: Option<Id>): Option<World> {
    match PcOf(s, w)
    case VerifyingAlert(i) =>
      if i >= |s.db.incidents| || !Found(s.db, found, Some(i), AnIncident(i), {Verification}, {Todo, InProgress, Blocked})
      then None
      else Some(Job(s, w, D.ResolveIncident(s.db, i, healthy, found), Idle))
    case _ => None
  }

  // ---- Requests that look up a task first ----

  function StepApprovePlan(s: World, p: Id, found: Option<Id>): Option<World> {
    if !Found(s.db, found, None, APlan(p), {Approval}, {Todo, InProgress}) then None
    else Some(Request(s, D.ApprovePlan(s.db, p, found)))
  }

  function StepRejectPlan(s: World, p: Id, found: Option<Id>): Option<World>
    requires RefsOk(s.db)
  {
    if !Found(s.db, found, None, APlan(p), {Approval}, {Todo, InProgress, Blocked}) then None
    else Some(Request(s, D.RejectPlan(s.db, p, found)))
  }

  // ---- Requests that only change the tables ----

  predicate IsRequest(a: Action) {
    || a.AddIncident? || a.CreateTask? || a.TransitionTask? || a.CreateRun? || a.RequestCancel? || a.FailRun?
    || a.CreatePlan? || a.DryRunPlan? || a.CreateExecution? || a.FailExecution?
  }

  /** `FailRun` and `FailExecution` may come from any delivery of a job that raised. */
  function Requested(db: Db, a: Action): Result<Db, Error>
    requires RefsOk(db) && IsRequest(a)
  {
    match a
    case AddIncident => Ok(D.AddIncident(db))
    case CreateTask(i, kind, related) => D.CreateTask(db, i, kind, related)
    case TransitionTask(t, to) => D.TransitionTask(db, t, to)
    case CreateRun(i) => D.CreateRun(db, i)
    case RequestCancel(r) => D.RequestCancel(db, r)
    case FailRun(r) => D.FailRun(db, r)
    case CreatePlan(i, target, wellFormed) => D.CreatePlan(db, i, target, wellFormed)
    case DryRunPlan(p, inspection, namespaces) => D.DryRunPlan(db, p, inspection, namespaces)
    case CreateExecution(p, key) => D.CreateExecution(db, p, key)
    case FailExecution(x) => D.FailExecution(db, x)
  }

  function Step(s: World, a: Action): Option<World>
    requires RefsOk(s.db)
  {
    match a
    case ClaimRun(w, r) => StepClaimRun(s, w, r)
    case FinishRun(w, to) => StepFinishRun(s, w, to)
    case BeginDiagnosis(w, r) => StepBeginDiagnosis(s, w, r)
    case EndDiagnosis(w) => StepEndDiagnosis(s, w)
    case ApprovePlan(p, found) => StepApprovePlan(s, p, found)
    case RejectPlan(p, found) => StepRejectPlan(s, p, found)
    case BeginExecution(w, x) => StepBeginExecution(s, w, x)
    case DeletePod(w, raised) => StepDeletePod(s, w, raised)
    case RecordFailure(w) => StepRecordFailure(s, w)
    case RecordSuccess(w) => StepRecordSuccess(s, w)
    case RecordVerification(w, healthy) => StepRecordVerification(s, w, healthy)
    case ReceiveResolved(w, i) => StepReceiveResolved(s, w, i)
    case ResolveIncident(w, healthy, found) => StepResolveIncident(s, w, healthy, found)
    case Recover(rs, xs, runCutoff, executionCutoff) =>
      if Sweepable(s.db, rs, xs, runCutoff, executionCutoff) then Some(s.(db := D.Recover(s.db, rs, xs))) else None
    case Die(w) => Some(Goto(s, w, Idle))
    case Tick(now) => if now >= s.db.now then Some(s.(db := s.db.(now := now))) else None
    case _ => Some(Request(s, Requested(s.db, a)))
  }

  /** The world after performing `trace`, when every action in it is possible. */
  function Run(s: World, trace: seq<Action>): Option<World>
    decreases |trace|
  {
    if trace == [] then Some(s)
    else if !RefsOk(s.db) then None
    else
      match Step(s, trace[0])
      case None => None
      case Some(s') => Run(s', trace[1..])
  }

  /** Before the first request. */
  predicate Empty(s: World) {
    && s.db.incidents == [] && s.db.tasks == [] && s.db.plans == [] && s.db.executions == [] && s.db.runs == []
    && s.db.log == [] && s.workers == map[] && s.deletions == []
  }

  ghost predicate Reachable(s: World) {
    exists init, trace :: Empty(init) && Run(init, trace) == Some(s)
  }
}
