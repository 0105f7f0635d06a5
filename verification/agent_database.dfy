/**
 * The rows of one agent run and the transactions that change them (app/ops_agent/agent_core.py).
 * Each function is one `session_factory.begin()` block, an atomic step.
 */
module AgentDatabase {
  import opened Common
  import opened Domain
  import opened ContextMemory
  import opened AgentDecision

  type WorkerId = nat

  const LEASE_SECONDS := 30

  datatype RunRow = RunRow(
    status: RunStatus,
    currentStep: nat,
    maxSteps: nat,
    toolCallsUsed: nat,
    maxToolCalls: nat,
    modelCallsUsed: nat,
    maxModelCalls: nat,
    inputUsed: int,
    outputUsed: int,
    maxTokens: int,
    timeout: int,
    cancelRequested: bool,
    deadline: Option<int>,
    leaseOwner: Option<WorkerId>,
    leaseExpires: Option<int>,
    startedAt: Option<int>,
    targetUid: Json,
    diagnosis: Option<Diagnosis>,
    stopReason: string)

  datatype StepStatus = Running | Succeeded | Failed | Denied

  datatype InvocationStatus = Running | Succeeded | Failed | TimedOut

  /** `sent` are the decision's arguments, `arguments` the sanitized column. */
  datatype Invocation = Invocation(
    tool: string,
    sent: Content,
    arguments: Content,
    status: InvocationStatus,
    evidence: Option<Id>,
    errorCode: string)

  /** `owner` is the worker that inserted the row, `conflicting` the mark in its context snapshot. */
  datatype StepRow = StepRow(
    owner: WorkerId,
    conflicting: bool,
    status: StepStatus,
    kind: Option<StepType>,
    summary: string,
    evidenceIds: seq<Id>,
    errorCode: string,
    invocation: Option<Invocation>)

  datatype Db = Db(run: RunRow, steps: map<nat, StepRow>, evidence: seq<Evidence>, now: int)

  /** A unique constraint refused the transaction. */
  datatype Integrity = IntegrityError

  // ---- Run row ----

  predicate LeaseHeldByOther(run: RunRow, w: WorkerId, now: int) {
    && run.leaseExpires.Some? && run.leaseExpires.value > now
    && run.leaseOwner.Some? && run.leaseOwner.value != w
  }

  /** `_claim`; `alert` is the alert evidence written on first claim. */
  function Claim(db: Db, w: WorkerId, alert: Evidence): Db {
    if TerminalRun(db.run.status) || LeaseHeldByOther(db.run, w, db.now) then db
    else
      var run := db.run.(leaseOwner := Some(w), leaseExpires := Some(db.now + LEASE_SECONDS));
      if !run.status.Queued? then db.(run := run)
      else
        db.(run := run.(status := RunStatus.Running, startedAt := Some(db.now),
                        deadline := if run.deadline.None? then Some(db.now + run.timeout) else run.deadline),
            evidence := if exists e | e in db.evidence :: e.kind.AlertPayload? then db.evidence
                        else db.evidence + [alert])
  }

  /** `_finish`. */
  function Finish(db: Db, status: RunStatus, reason: string, diagnosis: Option<Diagnosis>): Db {
    if TerminalRun(db.run.status) then db
    else
      db.(run := db.run.(status := status, stopReason := reason, leaseOwner := None, leaseExpires := None,
                         diagnosis := if diagnosis.Some? then diagnosis else db.run.diagnosis))
  }

  /** `request_cancel`. */
  function RequestCancel(db: Db): Db {
    if TerminalRun(db.run.status) then db
    else
      var run := db.run.(cancelRequested := true);
      db.(run := if run.status.Queued?
                 then run.(status := RunStatus.Cancelled, stopReason := "USER_CANCELLED") else run)
  }

  /** `fail_agent_run` (app/ops_agent/services.py), for the run row. */
  function FailRun(db: Db): Db {
    if TerminalRun(db.run.status) then db else db.(run := db.run.(status := RunStatus.Failed))
  }

  /** `recover_stuck_work_once` (app/ops_agent/recovery.py), for this run. */
  function Recover(db: Db, cutoff: int): Db {
    if ActiveRun(db.run.status) && db.run.startedAt.Some? && db.run.startedAt.value <= cutoff then
      db.(run := db.run.(
        status := if db.run.status.Running? then RunStatus.Stopped else RunStatus.Failed,
        stopReason := if db.run.status.Running? then "WORKER_INTERRUPTED" else "RUN_TIMEOUT",
        leaseOwner := None, leaseExpires := None))
    else db
  }

  // ---- Step rows ----

  /** The step row insert; (run, sequence) is unique. */
  function InsertStep(db: Db, sequence: nat, w: WorkerId, conflicting: bool): Result<Db, Integrity> {
    if sequence in db.steps then Err(IntegrityError)
    else
      Ok(db.(steps := db.steps[sequence :=
        StepRow(w, conflicting, StepStatus.Running, None, "", [], "", None)]))
  }

  /** The write of a decision into its step row. */
  function RecordDecision(db: Db, sequence: nat, d: Decision): Db
    requires sequence in db.steps
  {
    db.(steps := db.steps[sequence := db.steps[sequence].(
      kind := Some(d.kind), summary := d.summary, evidenceIds := d.evidenceIds)])
  }

  /** A step row closed without advancing the run: the cancelled or expired case. */
  function CloseStep(db: Db, sequence: nat, status: StepStatus, code: string): Db
    requires sequence in db.steps
  {
    db.(steps := db.steps[sequence := db.steps[sequence].(status := status, errorCode := code)])
  }

  /** A step row closed together with `current_step = sequence`. */
  function AdvanceStep(db: Db, sequence: nat, status: StepStatus, code: string): Db
    requires sequence in db.steps
  {
    var closed := CloseStep(db, sequence, status, code);
    closed.(run := closed.run.(currentStep := sequence))
  }

  // ---- Model accounting ----

  datatype Usage = Usage(input: nat, output: nat)

  function Reserve(db: Db, input: int, output: int): Db {
    db.(run := db.run.(modelCallsUsed := db.run.modelCallsUsed + 1,
                       inputUsed := db.run.inputUsed + input, outputUsed := db.run.outputUsed + output))
  }

  function Settle(db: Db, input: int, output: int, usage: Option<Usage>): Db {
    if usage.None? then db
    else
      db.(run := db.run.(inputUsed := db.run.inputUsed + usage.value.input - input,
                         outputUsed := db.run.outputUsed + usage.value.output - output))
  }

  predicate Exhausted(run: RunRow) { run.inputUsed + run.outputUsed > run.maxTokens }

  // ---- Tool invocations ----

  /** The invocation insert, with the tool counter and the lease refresh. */
  function StartTool(db: Db, sequence: nat, tool: string, sent: Content, clean: Content): Result<Db, Integrity>
    requires sequence in db.steps
  {
    if db.steps[sequence].invocation.Some? then Err(IntegrityError)
    else
      Ok(db.(steps := db.steps[sequence := db.steps[sequence].(
               invocation := Some(Invocation(tool, sent, clean, InvocationStatus.Running, None, "")))],
             run := db.run.(toolCallsUsed := db.run.toolCallsUsed + 1,
                            leaseExpires := Some(db.now + LEASE_SECONDS))))
  }

  /** What `registry.invoke` gave after its attempts. */
  datatype Outcome = Result(kind: EvidenceType, source: string, content: Content) | ToolFailed(code: string)

  /** The evidence row an outcome is stored as. */
  function OutcomeEvidence(db: Db, outcome: Outcome, tool: string, id: Id, runId: Id): Evidence {
    match outcome
    case Result(kind, source, content) => Evidence(id, runId, kind, source, content, Some(db.now), None)
    case ToolFailed(code) =>
      Evidence(id, runId, CollectionError, tool,
               map["tool" := JStr(tool), "error_code" := JStr(code)], Some(db.now), None)
  }

  /** (run, type, content hash) is unique. */
  predicate SameContent(db: Db, e: Evidence) {
    exists x | x in db.evidence :: x.kind == e.kind && x.content == e.content
  }

  const POD_STATUS_TOOL := "get_pod_status"

  /** The uid bound after a result: the first non-empty uid of a pod status, then never changed. */
  function BindUid(bound: Json, tool: string, outcome: Outcome): Json {
    if outcome.Result? && tool == POD_STATUS_TOOL && Has(outcome.content, "uid") && !Truthy(bound)
    then outcome.content["uid"] else bound
  }

  /** The result transaction of a tool call. */
  function CommitTool(db: Db, sequence: nat, outcome: Outcome, id: Id, runId: Id): Result<Db, Integrity>
    requires sequence in db.steps && db.steps[sequence].invocation.Some?
  {
    var step := db.steps[sequence];
    var invocation := step.invocation.value;
    var row := OutcomeEvidence(db, outcome, invocation.tool, id, runId);
    if SameContent(db, row) then Err(IntegrityError)
    else
      var closed := match outcome
        case Result(_, _, _) =>
          step.(invocation := Some(invocation.(status := InvocationStatus.Succeeded, evidence := Some(id))),
                status := StepStatus.Succeeded)
        case ToolFailed(code) =>
          step.(invocation := Some(invocation.(
                  status := if code == "TOOL_TRANSIENT_ERROR" then TimedOut else InvocationStatus.Failed,
                  evidence := Some(id), errorCode := code)),
                status := StepStatus.Failed, errorCode := code);
      Ok(db.(steps := db.steps[sequence := closed],
             evidence := db.evidence + [row],
             run := db.run.(currentStep := sequence,
                            targetUid := BindUid(db.run.targetUid, invocation.tool, outcome))))
  }
}
