/**
 * One agent run with any number of workers: the control flow of `process`, `_decide` and the job
 * handler between the transactions of AgentDatabase, interleaved with each other and with
 * cancellation, recovery, worker failure and the clock.
 */
module AgentRun {
  import opened Common
  import opened Domain
  import opened ContextMemory
  import opened EvidenceOrder
  import opened ContextBuilder
  import opened AgentDecision
  import Redaction
  import D = AgentDatabase
  import opened AgentDatabase

  /** Parsed model settings of a reasoner. */
  datatype ModelConfig = ModelConfig(window: int, inputLimit: int, outputTokens: int, margin: int)

  /** A rules reasoner, or a model one with its settings when they parse as integers. */
  datatype Reasoner = RulesOnly | WithModel(settings: Option<ModelConfig>)

  /** The facts a policy evaluation reads. */
  datatype PolicyInput = PolicyInput(
    boundUid: Json, used: int, budget: int, tool: string, arguments: Content, previous: set<CallPrint>)

  /** What stays fixed during a run; an orchestrator is given its builder, validation and policy as collaborators. */
  datatype Config = Config(
    runId: Id,
    target: Target,
    registry: Registry,
    reasoner: Reasoner,
    rules: Rules,
    text: TextRules,
    secrets: Redaction.Secrets,
    oversize: Content -> Option<Redaction.Cut>,
    sanitizeArguments: Content -> Content,
    build: Request -> Result<View, BuildError>,
    validate: (Decision, set<Id>) -> Option<Error>,
    evaluate: PolicyInput -> Policy)

  /** The collaborators are the ones of modules ContextBuilder, AgentDecision and Redaction. */
  ghost predicate Wired(cfg: Config) {
    && SanitizerKeepsMarks(cfg.rules)
    && (forall c: Content :: cfg.sanitizeArguments(c) == Redaction.SanitizeContent(cfg.secrets, cfg.oversize, c))
    && (forall r: Request :: cfg.build(r) == Build(cfg.rules, r))
    && (forall d, visible :: cfg.validate(d, visible) == Validate(cfg.text, cfg.registry, d, visible))
    && (forall i: PolicyInput :: cfg.evaluate(i) ==
          if i.tool !in cfg.registry then Deny("TOOL_NOT_REGISTERED")
          else Evaluate(cfg.registry[i.tool], cfg.target, i.boundUid, i.used, i.budget, i.tool, i.arguments, i.previous))
  }

  // ---- Budget of one model request ----

  function TokensLeft(run: RunRow): int { run.maxTokens - run.inputUsed - run.outputUsed }

  /** `OpenAIDecisionReasoner.budget`. */
  function Budget(settings: Option<ModelConfig>, run: RunRow): Result<ModelBudget, Error> {
    match settings
    case None => Err(ModelConfigInvalid)
    case Some(m) =>
      if Min(m.window, Min(m.inputLimit, m.outputTokens)) <= 0 || m.margin < 0 then Err(ModelConfigInvalid)
      else
        var limit := Min(m.window - m.outputTokens - m.margin,
                         Min(TokensLeft(run) - m.outputTokens - m.margin, m.inputLimit));
        if limit <= 0 || run.modelCallsUsed >= run.maxModelCalls then Err(ModelBudgetExhausted)
        else Ok(ModelBudget(limit, m.outputTokens, m.margin))
  }

  // ---- Snapshots and contexts ----

  datatype Snapshot = Snapshot(run: RunRow, steps: map<nat, StepRow>, evidence: seq<Evidence>)

  function NoteOf(step: StepRow): StepNote {
    StepNote(step.summary, step.evidenceIds,
             if step.invocation.Some? && step.invocation.value.errorCode != ""
             then Some(Failure(step.invocation.value.tool, step.invocation.value.errorCode)) else None)
  }

  /** The rows with sequences 1..n, in order. */
  function RowsUpTo(steps: map<nat, StepRow>, n: nat): seq<StepRow> {
    if n == 0 then [] else RowsUpTo(steps, n - 1) + (if n in steps then [steps[n]] else [])
  }

  function NotesOf(rows: seq<StepRow>): seq<StepNote> {
    if rows == [] then [] else [NoteOf(rows[0])] + NotesOf(rows[1..])
  }

  function HistoryOf(rows: seq<StepRow>, first: nat): seq<HistoryEntry> {
    if rows == [] then []
    else
      [HistoryEntry(first, if rows[0].invocation.Some? then Some(rows[0].invocation.value.tool) else None)]
      + HistoryOf(rows[1..], first + 1)
  }

  function LatestEvidence(rows: seq<StepRow>): Option<Id> {
    if rows == [] then None
    else
      var last := rows[|rows| - 1];
      if last.invocation.Some? && last.invocation.value.evidence.Some? then last.invocation.value.evidence
      else LatestEvidence(rows[..|rows| - 1])
  }

  function RankingOf(rows: seq<StepRow>): Ranking {
    Ranking(LatestEvidence(rows), set row, id | row in LastThree(rows) && id in row.evidenceIds :: id)
  }

  function HeaderOf(run: RunRow, rows: seq<StepRow>): Header {
    Header(run.targetUid,
           ContextMemory.Remaining(
             Max(0, run.maxSteps - run.currentStep), Max(0, run.maxToolCalls - run.toolCallsUsed),
             Max(0, run.maxModelCalls - run.modelCallsUsed), Max(0, TokensLeft(run))),
           HistoryOf(rows, 1), None)
  }

  function RequestOf(cfg: Config, snap: Snapshot, now: int, budget: Option<ModelBudget>): Request {
    var rows := RowsUpTo(snap.steps, |snap.steps|);
    Request(cfg.runId, now, HeaderOf(snap.run, rows), snap.evidence, NotesOf(rows), RankingOf(rows), budget)
  }

  /** The local variables of one loop iteration. */
  datatype Frame = Frame(snap: Snapshot, now: int, budget: Option<ModelBudget>, context: View)

  /** `sequence = run.current_step + 1`, from the snapshot. */
  function Sequence(f: Frame): nat { f.snap.run.currentStep + 1 }

  /** The moment and bound uid a decision's citations were judged against. */
  datatype Basis = Basis(now: int, uid: Json)

  /** Where a worker is; every transition performs at most one transaction. */
  datatype Pc =
    | Idle
    | LoopTop
    | Ready(f: Frame)
    | Deciding(f: Frame)
    | InFlight(f: Frame)
    | Ruling(f: Frame)
    | Undecided(f: Frame, error: Error)
    | Decided(f: Frame, d: Decision, basis: Basis)
    | Recorded(f: Frame, d: Decision, basis: Basis)
    | Cleared(f: Frame, d: Decision, basis: Basis)
    | Ending(f: Frame, cancelled: bool)
    | ToolRunning(f: Frame, d: Decision)
    | Finishing(status: RunStatus, reason: string, diagnosis: Option<Diagnosis>, step: nat)
    | Crashed

  /** `rounds` counts completed loop iterations of the current `process` call. */
  datatype Worker = Worker(pc: Pc, rounds: nat)

  /** History of one model call, kept under its step's sequence. */
  datatype ModelCall = ModelCall(input: int, output: int, usage: Option<Usage>, overspent: bool)

  /**
   * The system: the rows, the workers, and history. `basis` records how each decision was judged,
   * `completedBy` the step whose worker set COMPLETED.
   */
  datatype Sys = Sys(
    db: Db,
    workers: map<WorkerId, Worker>,
    calls: map<nat, ModelCall>,
    basis: map<nat, Basis>,
    completedBy: Option<nat>)

  /** The answer of a model request: a decision or an exception, either with or without usage. */
  datatype Answer = Answered(decision: Decision, usage: Option<Usage>) | Raised(usage: Option<Usage>)

  datatype Action =
    | Claim(w: WorkerId, id: Id, content: Content)
    | Observe(w: WorkerId)
    | Insert(w: WorkerId)
    | Reserve(w: WorkerId)
    | Settle(w: WorkerId, answer: Answer)
    | Rule(w: WorkerId, decision: Decision)
    | FailStep(w: WorkerId)
    | Record(w: WorkerId)
    | Check(w: WorkerId)
    | End(w: WorkerId)
    | Dispatch(w: WorkerId)
    | Commit(w: WorkerId, outcome: Outcome, id: Id)
    | Finish(w: WorkerId)
    | Raise(w: WorkerId)
    | FailRun(w: WorkerId)
    | Die(w: WorkerId)
    | RequestCancel
    | Recover(cutoff: int)
    | Tick(now: int)

  function PcOf(s: Sys, w: WorkerId): Pc { if w in s.workers then s.workers[w].pc else Idle }

  function RoundsOf(s: Sys, w: WorkerId): nat { if w in s.workers then s.workers[w].rounds else 0 }

  /** Worker `w` moves to `pc`, having committed `db`. */
  function Goto(s: Sys, db: Db, w: WorkerId, pc: Pc): Sys {
    s.(db := db, workers := s.workers[w := Worker(pc, RoundsOf(s, w))])
  }

  predicate FreshId(db: Db, id: Id) { forall e | e in db.evidence :: e.id != id }

  function GiveUp(reason: string): Pc { Finishing(RunStatus.Stopped, reason, None, 0) }

  /** The rest of an iteration's head: guards, budget and context, all computed from the snapshot. */
  function Prepare(cfg: Config, snap: Snapshot, now: int): Pc {
    if snap.run.cancelRequested then Finishing(RunStatus.Cancelled, "USER_CANCELLED", None, 0)
    else if snap.run.deadline.Some? && now >= snap.run.deadline.value then GiveUp("RUN_DEADLINE_EXCEEDED")
    else if snap.run.currentStep >= snap.run.maxSteps then GiveUp("MAX_STEPS_EXHAUSTED")
    else if snap.run.toolCallsUsed >= snap.run.maxToolCalls then GiveUp("TOOL_BUDGET_EXHAUSTED")
    else
      match (if cfg.reasoner.WithModel? then Budget(cfg.reasoner.settings, snap.run) else Err(ModelConfigInvalid))
      case Err(_) => PrepareWith(cfg, snap, now, None)
      case Ok(budget) =>
        var pc := PrepareWith(cfg, snap, now, Some(budget));
        if pc.Ready? then pc else PrepareWith(cfg, snap, now, None)
  }

  function PrepareWith(cfg: Config, snap: Snapshot, now: int, budget: Option<ModelBudget>): Pc {
    match cfg.build(RequestOf(cfg, snap, now, budget))
    case Ok(context) => Ready(Frame(snap, now, budget, context))
    case Err(_) => GiveUp("CONTEXT_TOO_LARGE")
  }

  function ReservedInput(cfg: Config, f: Frame): int
    requires f.budget.Some?
  {
    cfg.rules.estimate(f.context) + f.budget.value.safetyMargin
  }

  /** Ids shown to the model that are fresh and not of another uid. */
  function CurrentIds(context: View): set<Id> { set item | item in context.evidence && Current(item) :: item.id }

  /** Whether the model's decision stands; otherwise the rules decide. */
  predicate ModelDecisionStands(cfg: Config, context: View, d: Decision) {
    && cfg.validate(d, ToSet(context.visible)).None?
    && (d.kind.Complete? ==>
          ToSet(d.evidenceIds) <= CurrentIds(context) && !context.selection.conflicting)
  }

  /** Evidence the rules may read: rows of the run that are fresh and not of another uid, at decision time. */
  function EligibleIds(cfg: Config, f: Frame, now: int): set<Id> {
    set e | e in f.snap.evidence && e.runId == cfg.runId
            && FreshnessOf(e, now, cfg.rules.items.ttls).Fresh?
            && !UidStatusOf(UidOf(e.content), f.snap.run.targetUid).Mismatch? :: e.id
  }

  /** The decision taken instead of the rules when observations conflict. */
  const CONFLICT_DECISION :=
    Decision(AskHuman, None, map[], "Conflicting observations require confirmation", [],
             Some("CONFLICTING_EVIDENCE"), None)

  function RuleOutcome(cfg: Config, f: Frame, now: int, proposal: Decision): Pc {
    var d := if f.context.selection.conflicting then CONFLICT_DECISION else proposal;
    var visible := if f.context.selection.conflicting then {} else EligibleIds(cfg, f, now);
    match cfg.validate(d, visible)
    case Some(error) => Undecided(f, error)
    case None => Decided(f, d, Basis(now, f.snap.run.targetUid))
  }

  function PreviousPrints(steps: map<nat, StepRow>): set<CallPrint> {
    set n | n in steps && steps[n].invocation.Some? ::
      CallPrint(steps[n].invocation.value.tool, steps[n].invocation.value.arguments)
  }

  // ---- Steps of a worker ----

  function StepClaim(cfg: Config, s: Sys, w: WorkerId, id: Id, content: Content): Option<Sys> {
    if !PcOf(s, w).Idle? || !FreshId(s.db, id) then None
    else
      var db := D.Claim(s.db, w, Evidence(id, cfg.runId, AlertPayload, "alert", content, Some(s.db.now), None));
      var claimed := db.run.status.Running? && db.run.leaseOwner == Some(w);
      Some(s.(db := db, workers := s.workers[w := Worker(if claimed then LoopTop else Idle, 0)]))
  }

  function StepObserve(cfg: Config, s: Sys, w: WorkerId): Option<Sys> {
    if !PcOf(s, w).LoopTop? then None
    else Some(Goto(s, s.db, w, Prepare(cfg, Snapshot(s.db.run, s.db.steps, s.db.evidence), s.db.now)))
  }

  function StepInsert(cfg: Config, s: Sys, w: WorkerId): Option<Sys> {
    match PcOf(s, w)
    case Ready(f) =>
      Some(match D.InsertStep(s.db, Sequence(f), w, f.context.selection.conflicting)
           case Ok(db) => Goto(s, db, w, if f.budget.Some? then Deciding(f) else Ruling(f))
           case Err(_) => Goto(s, s.db, w, Crashed))
    case _ => None
  }

  function StepReserve(cfg: Config, s: Sys, w: WorkerId): Option<Sys> {
    match PcOf(s, w)
    case Deciding(f) =>
      if f.budget.None? then None
      else
        var input, output := ReservedInput(cfg, f), f.budget.value.outputTokens;
        Some(Goto(s, D.Reserve(s.db, input, output), w, InFlight(f))
             .(calls := s.calls[Sequence(f) := ModelCall(input, output, None, false)]))
    case _ => None
  }

  function StepSettle(cfg: Config, s: Sys, w: WorkerId, answer: Answer): Option<Sys> {
    match PcOf(s, w)
    case InFlight(f) =>
      if f.budget.None? then None
      else
        var input, output := ReservedInput(cfg, f), f.budget.value.outputTokens;
        var db := D.Settle(s.db, input, output, answer.usage);
        var exhausted := Exhausted(db.run);
        var pc := if exhausted then Undecided(f, ModelBudgetExhausted)
                  else if answer.Answered? && ModelDecisionStands(cfg, f.context, answer.decision)
                  then Decided(f, answer.decision, Basis(f.now, f.snap.run.targetUid))
                  else Ruling(f);
        Some(Goto(s, db, w, pc).(calls := s.calls[Sequence(f) := ModelCall(input, output, answer.usage, exhausted)]))
    case _ => None
  }

  function StepRule(cfg: Config, s: Sys, w: WorkerId, proposal: Decision): Option<Sys> {
    match PcOf(s, w)
    case Ruling(f) => Some(Goto(s, s.db, w, RuleOutcome(cfg, f, s.db.now, proposal)))
    case _ => None
  }

  function StepFail(cfg: Config, s: Sys, w: WorkerId): Option<Sys> {
    match PcOf(s, w)
    case Undecided(f, error) =>
      if Sequence(f) !in s.db.steps then None
      else
        Some(Goto(s, AdvanceStep(s.db, Sequence(f), StepStatus.Failed, CodeOf(error)), w,
                  Finishing(if error.ModelBudgetExhausted? then RunStatus.Stopped else RunStatus.Failed,
                            CodeOf(error), None, 0)))
    case _ => None
  }

  function StepRecord(cfg: Config, s: Sys, w: WorkerId): Option<Sys> {
    match PcOf(s, w)
    case Decided(f, d, basis) =>
      if Sequence(f) !in s.db.steps then None
      else
        Some(Goto(s, RecordDecision(s.db, Sequence(f), d), w, Recorded(f, d, basis))
             .(basis := s.basis[Sequence(f) := basis]))
    case _ => None
  }

  function StepCheck(cfg: Config, s: Sys, w: WorkerId): Option<Sys> {
    match PcOf(s, w)
    case Recorded(f, d, basis) =>
      var run := s.db.run;
      var expired := run.deadline.Some? && run.deadline.value <= s.db.now;
      Some(Goto(s, s.db, w,
                if TerminalRun(run.status) then Idle
                else if run.cancelRequested || expired then Ending(f, run.cancelRequested)
                else Cleared(f, d, basis)))
    case _ => None
  }

  function StepEnd(cfg: Config, s: Sys, w: WorkerId): Option<Sys> {
    match PcOf(s, w)
    case Ending(f, cancelled) =>
      if Sequence(f) !in s.db.steps then None
      else
        var reason := if cancelled then "USER_CANCELLED" else "RUN_DEADLINE_EXCEEDED";
        Some(Goto(s, D.CloseStep(s.db, Sequence(f), StepStatus.Denied, reason), w,
                  Finishing(if cancelled then RunStatus.Cancelled else RunStatus.Stopped, reason, None, 0)))
    case _ => None
  }

  function StopReason(d: Decision, otherwise: string): string {
    if Blank(d.stopReason) then otherwise else d.stopReason.value
  }

  /** The end of the run a decision asks for. */
  function Conclusion(f: Frame, d: Decision): Pc {
    match d.kind
    case Complete => Finishing(RunStatus.Completed, "GOAL_COMPLETED", d.diagnosis, Sequence(f))
    case AskHuman => Finishing(RunStatus.AwaitingHuman, StopReason(d, "HUMAN_INPUT_REQUIRED"), None, 0)
    case _ => Finishing(RunStatus.Stopped, StopReason(d, "REASONER_STOPPED"), None, 0)
  }

  /** The facts of a call the policy sees, from the snapshot. */
  function InputOf(f: Frame, d: Decision): PolicyInput
    requires d.tool.Some?
  {
    PolicyInput(f.snap.run.targetUid, f.snap.run.toolCallsUsed, f.snap.run.maxToolCalls,
                d.tool.value, d.arguments, PreviousPrints(f.snap.steps))
  }

  /** A decision to call a tool: a refused call or a started one. */
  function DispatchedCall(cfg: Config, db: Db, f: Frame, d: Decision): Option<(Db, Pc)>
    requires Sequence(f) in db.steps
  {
    if Blank(d.tool) || d.tool.value !in cfg.registry then None
    else
      match cfg.evaluate(InputOf(f, d))
      case Deny(reason) => Some((AdvanceStep(db, Sequence(f), StepStatus.Denied, reason), GiveUp(reason)))
      case AskOperator(reason) =>
        Some((AdvanceStep(db, Sequence(f), StepStatus.Denied, reason), Finishing(RunStatus.AwaitingHuman, reason, None, 0)))
      case Allow =>
        match StartTool(db, Sequence(f), d.tool.value, d.arguments, cfg.sanitizeArguments(d.arguments))
        case Ok(started) => Some((started, ToolRunning(f, d)))
        case Err(_) => Some((db, Crashed))
  }

  /** What a cleared decision leads to: its own end, a refused call, or a started call. */
  function Dispatched(cfg: Config, db: Db, f: Frame, d: Decision): Option<(Db, Pc)>
    requires Sequence(f) in db.steps
  {
    if d.kind.CallTool? then DispatchedCall(cfg, db, f, d)
    else Some((AdvanceStep(db, Sequence(f), StepStatus.Succeeded, ""), Conclusion(f, d)))
  }

  function StepDispatch(cfg: Config, s: Sys, w: WorkerId): Option<Sys> {
    match PcOf(s, w)
    case Cleared(f, d, _) =>
      if Sequence(f) !in s.db.steps then None
      else
        var next := Dispatched(cfg, s.db, f, d);
        if next.None? then None else Some(Goto(s, next.value.0, w, next.value.1))
    case _ => None
  }

  function StepCommit(cfg: Config, s: Sys, w: WorkerId, outcome: Outcome, id: Id): Option<Sys> {
    match PcOf(s, w)
    case ToolRunning(f, d) =>
      if Sequence(f) !in s.db.steps || s.db.steps[Sequence(f)].invocation.None? || !FreshId(s.db, id) then None
      else
        Some(match CommitTool(s.db, Sequence(f), outcome, id, cfg.runId)
             case Err(_) => Goto(s, s.db, w, Crashed)
             case Ok(db) =>
               match outcome
               case Result(_, _, _) => s.(db := db, workers := s.workers[w := Worker(LoopTop, RoundsOf(s, w) + 1)])
               case ToolFailed(code) => Goto(s, db, w, Finishing(RunStatus.AwaitingHuman, code, None, 0)))
    case _ => None
  }

  function StepFinish(cfg: Config, s: Sys, w: WorkerId): Option<Sys> {
    match PcOf(s, w)
    case Finishing(status, reason, diagnosis, step) =>
      Some(Goto(s, D.Finish(s.db, status, reason, diagnosis), w, Idle)
           .(completedBy := if status.Completed? && !TerminalRun(s.db.run.status) then Some(step) else s.completedBy))
    case _ => None
  }

  /** One step of the system; None when the action is not possible. */
  function Step(cfg: Config, s: Sys, a: Action): Option<Sys> {
    match a
    case Claim(w, id, content) => StepClaim(cfg, s, w, id, content)
    case Observe(w) => StepObserve(cfg, s, w)
    case Insert(w) => StepInsert(cfg, s, w)
    case Reserve(w) => StepReserve(cfg, s, w)
    case Settle(w, answer) => StepSettle(cfg, s, w, answer)
    case Rule(w, proposal) => StepRule(cfg, s, w, proposal)
    case FailStep(w) => StepFail(cfg, s, w)
    case Record(w) => StepRecord(cfg, s, w)
    case Check(w) => StepCheck(cfg, s, w)
    case End(w) => StepEnd(cfg, s, w)
    case Dispatch(w) => StepDispatch(cfg, s, w)
    case Commit(w, outcome, id) => StepCommit(cfg, s, w, outcome, id)
    case Finish(w) => StepFinish(cfg, s, w)
    // An exception between two transactions, its handler, and a death without a handler.
    case Raise(w) => if PcOf(s, w).Idle? then None else Some(Goto(s, s.db, w, Crashed))
    case FailRun(w) => if PcOf(s, w).Crashed? then Some(Goto(s, D.FailRun(s.db), w, Idle)) else None
    case Die(w) => Some(Goto(s, s.db, w, Idle))
    case RequestCancel => Some(s.(db := D.RequestCancel(s.db)))
    case Recover(cutoff) => Some(s.(db := D.Recover(s.db, cutoff)))
    case Tick(now) => if now >= s.db.now then Some(s.(db := s.db.(now := now))) else None
  }

  /** A run as `create_agent_run` inserts it, before any worker. */
  ghost predicate Init(cfg: Config, s: Sys) {
    && s.db.run.status.Queued?
    && s.db.run.currentStep == s.db.run.toolCallsUsed == s.db.run.modelCallsUsed == 0
    && s.db.run.inputUsed == s.db.run.outputUsed == 0
    && s.db.run.maxTokens >= 0
    && s.db.run.diagnosis.None?
    && s.db.steps == map[] && s.db.evidence == []
    && s.workers == map[] && s.calls == map[] && s.basis == map[] && s.completedBy.None?
  }

  /** The state after performing `trace`, when every action in it is possible. */
  function Run(cfg: Config, s: Sys, trace: seq<Action>): Option<Sys>
    decreases |trace|
  {
    if trace == [] then Some(s)
    else
      match Step(cfg, s, trace[0])
      case None => None
      case Some(s') => Run(cfg, s', trace[1..])
  }

  /** `s` is reached by some run of the system. */
  ghost predicate Reachable(cfg: Config, s: Sys) {
    exists init, trace :: Init(cfg, init) && Run(cfg, init, trace) == Some(s)
  }
}
