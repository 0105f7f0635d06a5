/**
 * What holds in every reachable state of an agent run, and along every run: the invariants of the
 * other Agent modules put together and read off as statements about rows.
 */
module AgentGuarantees {
  import opened Common
  import opened Domain
  import opened ContextMemory
  import opened ContextBuilder
  import opened AgentDecision
  import D = AgentDatabase
  import opened AgentDatabase
  import opened AgentRun
  import opened AgentStructure
  import opened AgentBudget
  import opened AgentTools
  import opened AgentCompletion

  ghost predicate Invariant(cfg: Config, s: Sys) {
    Structure(cfg, s) && Ledger(s) && ToolHistory(cfg, s) && Completion(cfg, s)
  }

  lemma InitInvariant(cfg: Config, s: Sys)
    requires Init(cfg, s)
    ensures Invariant(cfg, s)
  {
    assert TotalsOf(s.calls, 0) == Totals(0, 0, 0) && TotalsOf(s.calls, 1) == Totals(0, 0, 0);
    assert Invocations(s.db.steps, 0) == 0 && Invocations(s.db.steps, 1) == 0;
  }

  lemma StepKeepsInvariant(cfg: Config, s: Sys, a: Action)
    requires Wired(cfg) && Invariant(cfg, s) && Step(cfg, s, a).Some?
    ensures Invariant(cfg, Step(cfg, s, a).value)
  {
    StepKeepsStructure(cfg, s, a);
    StepKeepsLedger(cfg, s, a);
    StepKeepsTools(cfg, s, a);
    StepKeepsCompletion(cfg, s, a);
  }

  lemma {:induction false} RunKeepsInvariant(cfg: Config, s: Sys, trace: seq<Action>)
    requires Wired(cfg) && Invariant(cfg, s) && Run(cfg, s, trace).Some?
    ensures Invariant(cfg, Run(cfg, s, trace).value)
    decreases |trace|
  {
    if trace != [] {
      StepKeepsInvariant(cfg, s, trace[0]);
      RunKeepsInvariant(cfg, Step(cfg, s, trace[0]).value, trace[1..]);
    }
  }

  lemma ReachableInvariant(cfg: Config, s: Sys)
    requires Wired(cfg) && Reachable(cfg, s)
    ensures Invariant(cfg, s)
  {
    var init, trace :| Init(cfg, init) && Run(cfg, init, trace) == Some(s);
    InitInvariant(cfg, init);
    RunKeepsInvariant(cfg, init, trace);
  }

  // ---- States ----

  ghost predicate NumberedUpTo(steps: map<nat, StepRow>, k: nat) { forall n :: n in steps <==> 1 <= n <= k }

  /** Step rows are numbered 1..k without gaps, k is current_step or one more, and never exceeds max_steps. */
  lemma StepRowsAreContiguous(cfg: Config, s: Sys)
    requires Wired(cfg) && Reachable(cfg, s)
    ensures exists k: nat ::
              && NumberedUpTo(s.db.steps, k)
              && s.db.run.currentStep <= k <= s.db.run.currentStep + 1 && k <= s.db.run.maxSteps
  {
    ReachableInvariant(cfg, s);
    var c := s.db.run.currentStep;
    var k := if c + 1 in s.db.steps then c + 1 else c;
    assert NumberedUpTo(s.db.steps, k);
  }

  /** At most one worker is inside a step, on the row it inserted itself, whatever became of the leases. */
  lemma OneWorkerInsideAStep(cfg: Config, s: Sys, w: WorkerId, x: WorkerId)
    requires Wired(cfg) && Reachable(cfg, s) && Holds(PcOf(s, w)) && Holds(PcOf(s, x))
    ensures w == x
    ensures Sequence(PcOf(s, w).f) == s.db.run.currentStep + 1
    ensures Sequence(PcOf(s, w).f) in s.db.steps && s.db.steps[Sequence(PcOf(s, w).f)].owner == w
  {
    ReachableInvariant(cfg, s);
    OneInFlight(cfg, s, w, x);
    assert WorkerOk(cfg, s.db, s.calls, w, s.workers[w]);
  }

  /** One call of `process` goes round its loop at most max_steps times. */
  lemma LoopRoundsBounded(cfg: Config, s: Sys, w: WorkerId)
    requires Wired(cfg) && Reachable(cfg, s)
    ensures RoundsOf(s, w) <= s.db.run.currentStep <= s.db.run.maxSteps
  {
    ReachableInvariant(cfg, s);
    if w in s.workers {
      assert WorkerOk(cfg, s.db, s.calls, w, s.workers[w]);
    }
  }

  /** A request that is out fits the model's window and, with its reservation, the run's token and call budgets. */
  lemma RequestsStayWithinBudgets(cfg: Config, s: Sys, w: WorkerId)
    requires Wired(cfg) && Reachable(cfg, s) && PcOf(s, w).InFlight?
    ensures s.db.run.inputUsed + s.db.run.outputUsed <= s.db.run.maxTokens
    ensures s.db.run.modelCallsUsed <= s.db.run.maxModelCalls
    ensures cfg.reasoner.WithModel? && cfg.reasoner.settings.Some?
    ensures var m := cfg.reasoner.settings.value;
            cfg.rules.estimate(PcOf(s, w).f.context) + m.outputTokens + m.margin <= m.window
  {
    ReachableInvariant(cfg, s);
    assert WorkerOk(cfg, s.db, s.calls, w, s.workers[w]);
    RequestWithinBudget(cfg, PcOf(s, w).f);
  }

  /**
   * Tokens and calls used are the sums over all model calls made: actual usage when known, else the
   * reservation. There are never more calls than the run allows.
   */
  lemma TokensAreConserved(cfg: Config, s: Sys)
    requires Wired(cfg) && Reachable(cfg, s)
    ensures TotalsOf(s.calls, s.db.run.currentStep + 1)
            == Totals(s.db.run.modelCallsUsed, s.db.run.inputUsed, s.db.run.outputUsed)
    ensures s.db.run.modelCallsUsed <= s.db.run.maxModelCalls
    ensures forall n | n in s.calls :: 1 <= n <= s.db.run.currentStep + 1
    ensures forall w | PcOf(s, w).InFlight? ::
              && PcOf(s, w).f.budget.Some? && Sequence(PcOf(s, w).f) in s.calls
              && s.calls[Sequence(PcOf(s, w).f)].usage.None?
              && s.calls[Sequence(PcOf(s, w).f)].input == ReservedInput(cfg, PcOf(s, w).f)
              && s.calls[Sequence(PcOf(s, w).f)].output == PcOf(s, w).f.budget.value.outputTokens
  {
    ReachableInvariant(cfg, s);
    forall w | PcOf(s, w).InFlight?
      ensures PcOf(s, w).f.budget.Some? && Sequence(PcOf(s, w).f) in s.calls
      ensures s.calls[Sequence(PcOf(s, w).f)] ==
                ModelCall(ReservedInput(cfg, PcOf(s, w).f), PcOf(s, w).f.budget.value.outputTokens, None, false)
    {
      assert WorkerOk(cfg, s.db, s.calls, w, s.workers[w]);
    }
  }

  /** Both steps called the same tool with the same arguments. */
  predicate Repeats(first: StepRow, second: StepRow) {
    && first.invocation.Some? && second.invocation.Some?
    && SentPrint(first.invocation.value) == SentPrint(second.invocation.value)
  }

  /**
   * Tool calls are counted exactly, within budget and inside the incident's scope, and no call is sent
   * with what is stored for an earlier one.
   */
  lemma ToolCallsAreGoverned(cfg: Config, s: Sys)
    requires Wired(cfg) && Reachable(cfg, s)
    ensures s.db.run.toolCallsUsed == Invocations(s.db.steps, s.db.run.currentStep + 1) <= s.db.run.maxToolCalls
    ensures NoRepeats(s.db.steps) && AllConfined(cfg, s)
  {
    ReachableInvariant(cfg, s);
  }

  lemma RepeatedIsAltered(cfg: Config, s: Sys, i: nat, j: nat)
    requires Wired(cfg) && ToolHistory(cfg, s)
    requires i in s.db.steps && j in s.db.steps && i < j && Repeats(s.db.steps[i], s.db.steps[j])
    ensures !StoredAsSent(cfg, s.db.steps[i].invocation.value.sent)
  {
    assert Confined(cfg, s.db.run.targetUid, s.db.steps[i].invocation.value);
    StoredAsSentIff(cfg, s.db.steps[i].invocation.value.sent);
  }

  /** So a call is only ever repeated when its arguments hold a secret or are over the size limit. */
  lemma RepeatedCallsAreAltered(cfg: Config, s: Sys, i: nat, j: nat)
    requires Wired(cfg) && Reachable(cfg, s)
    requires i in s.db.steps && j in s.db.steps && i < j && Repeats(s.db.steps[i], s.db.steps[j])
    ensures !StoredAsSent(cfg, s.db.steps[i].invocation.value.sent)
  {
    ReachableInvariant(cfg, s);
    RepeatedIsAltered(cfg, s, i, j);
  }

  /**
   * A COMPLETED run has a diagnosis whose citations are, as a set, those of the step that completed
   * it; each is an evidence row of this run, fresh and of no other uid when the decision was judged,
   * and that step's context had no conflict.
   */
  lemma CompletedRunIsSupported(cfg: Config, s: Sys)
    requires Wired(cfg) && Reachable(cfg, s) && s.db.run.status.Completed?
    ensures s.db.run.diagnosis.Some? && s.completedBy.Some?
    ensures var c := s.completedBy.value;
            && c in s.db.steps && c in s.basis && !s.db.steps[c].conflicting
            && s.db.steps[c].kind == Some(Complete) && s.db.steps[c].status.Succeeded?
            && ToSet(s.db.run.diagnosis.value.citations) == ToSet(s.db.steps[c].evidenceIds)
            && s.db.steps[c].evidenceIds != []
            && forall id | id in s.db.steps[c].evidenceIds :: Supported(cfg, s.db.evidence, id, s.basis[c])
  {
    ReachableInvariant(cfg, s);
    assert RowOk(cfg, s, s.completedBy.value);
  }

  /** No step whose context carried the conflict mark has decided to complete, by model or by rules. */
  lemma ConflictNeverCompletes(cfg: Config, s: Sys, n: nat)
    requires Wired(cfg) && Reachable(cfg, s) && n in s.db.steps && s.db.steps[n].conflicting
    ensures s.db.steps[n].kind != Some(Complete)
    ensures s.completedBy == Some(n) ==> !s.db.run.status.Completed?
  {
    ReachableInvariant(cfg, s);
    assert RowOk(cfg, s, n);
  }

  /** The action worker `w` takes next; `answer`, `proposal`, `outcome` and `id` come from outside. */
  function NextAction(pc: Pc, w: WorkerId, answer: Answer, proposal: Decision, outcome: Outcome, id: Id): Action
    requires !pc.Idle?
  {
    match pc
    case LoopTop => Observe(w)
    case Ready(_) => Insert(w)
    case Deciding(_) => Reserve(w)
    case InFlight(_) => Settle(w, answer)
    case Ruling(_) => Rule(w, proposal)
    case Undecided(_, _) => FailStep(w)
    case Decided(_, _, _) => Record(w)
    case Recorded(_, _, _) => Check(w)
    case Cleared(_, _, _) => Dispatch(w)
    case Ending(_, _) => End(w)
    case ToolRunning(_, _) => Commit(w, outcome, id)
    case Finishing(_, _, _, _) => Finish(w)
    case Crashed => FailRun(w)
  }

  lemma ClearedCanDispatch(cfg: Config, s: Sys, w: WorkerId)
    requires PcOf(s, w).Cleared? && Sequence(PcOf(s, w).f) in s.db.steps
    requires s.db.steps[Sequence(PcOf(s, w).f)].invocation.None?
    requires var d := PcOf(s, w).d; d.kind.CallTool? ==> !Blank(d.tool) && d.tool.value in cfg.registry
    ensures StepDispatch(cfg, s, w).Some? && !PcOf(StepDispatch(cfg, s, w).value, w).Crashed?
  {
  }

  /** What the iteration head lets through. */
  predicate Passable(snap: Snapshot, now: int) {
    && !snap.run.cancelRequested && (snap.run.deadline.None? || now < snap.run.deadline.value)
    && snap.run.currentStep < snap.run.maxSteps && snap.run.toolCallsUsed < snap.run.maxToolCalls
  }

  /** The budget of the model request, when there is a model and anything is left for it. */
  function BudgetFor(cfg: Config, snap: Snapshot): Option<ModelBudget> {
    if cfg.reasoner.WithModel? && Budget(cfg.reasoner.settings, snap.run).Ok?
    then Some(Budget(cfg.reasoner.settings, snap.run).value) else None
  }

  predicate Fits(cfg: Config, snap: Snapshot, now: int, budget: Option<ModelBudget>) {
    cfg.build(RequestOf(cfg, snap, now, budget)).Ok?
  }

  /**
   * The head of an iteration: it goes on exactly when no cancel was requested, the deadline is ahead,
   * steps and tool calls are left, and the context fits either with the model's budget or without the
   * model; the model is asked exactly when it fits with the budget. A cancel ends the run as CANCELLED,
   * everything else as STOPPED.
   */
  lemma HeadGoesOnIff(cfg: Config, snap: Snapshot, now: int)
    ensures var pc, budget := Prepare(cfg, snap, now), BudgetFor(cfg, snap);
            && (pc.Ready? <==>
                  Passable(snap, now)
                  && (Fits(cfg, snap, now, None) || (budget.Some? && Fits(cfg, snap, now, budget))))
            && (pc.Ready? ==>
                  && pc.f.budget == (if budget.Some? && Fits(cfg, snap, now, budget) then budget else None)
                  && cfg.build(RequestOf(cfg, snap, now, pc.f.budget)) == Ok(pc.f.context))
            && (!pc.Ready? ==>
                  pc.Finishing? && pc.status == if snap.run.cancelRequested then RunStatus.Cancelled else RunStatus.Stopped)
  {
    PreparedWithBudget(cfg, snap, now, None);
    if BudgetFor(cfg, snap).Some? {
      PreparedWithBudget(cfg, snap, now, BudgetFor(cfg, snap));
    }
  }

  /** What the next action of a worker inside a step needs. */
  ghost predicate Equipped(cfg: Config, s: Sys, pc: Pc)
    requires Holds(pc)
  {
    && Sequence(pc.f) in s.db.steps
    && (s.db.steps[Sequence(pc.f)].invocation.Some? <==> pc.ToolRunning?)
    && (pc.Deciding? || pc.InFlight? ==> pc.f.budget.Some?)
    && (pc.Cleared? && pc.d.kind.CallTool? ==> !Blank(pc.d.tool) && pc.d.tool.value in cfg.registry)
  }

  lemma HoldersAreEquipped(cfg: Config, s: Sys, w: WorkerId)
    requires Invariant(cfg, s) && Holds(PcOf(s, w))
    ensures Equipped(cfg, s, PcOf(s, w))
  {
    assert WorkerOk(cfg, s.db, s.calls, w, s.workers[w]) && PcOk(cfg, s, s.workers[w].pc);
  }

  lemma WorkerCanMove(
    cfg: Config, s: Sys, w: WorkerId, answer: Answer, proposal: Decision, outcome: Outcome, id: Id)
    requires !PcOf(s, w).Idle? && FreshId(s.db, id) && (Holds(PcOf(s, w)) ==> Equipped(cfg, s, PcOf(s, w)))
    ensures var next := Step(cfg, s, NextAction(PcOf(s, w), w, answer, proposal, outcome, id));
            next.Some? && (PcOf(s, w).Cleared? ==> !PcOf(next.value, w).Crashed?)
  {
    if PcOf(s, w).Cleared? {
      ClearedCanDispatch(cfg, s, w);
    }
  }

  /** No worker gets stuck, and a started tool call never clashes with an invocation row that exists. */
  lemma WorkersNeverBlock(
    cfg: Config, s: Sys, w: WorkerId, answer: Answer, proposal: Decision, outcome: Outcome, id: Id)
    requires Wired(cfg) && Reachable(cfg, s) && !PcOf(s, w).Idle? && FreshId(s.db, id)
    ensures var next := Step(cfg, s, NextAction(PcOf(s, w), w, answer, proposal, outcome, id));
            next.Some? && (PcOf(s, w).Cleared? ==> !PcOf(next.value, w).Crashed?)
  {
    ReachableInvariant(cfg, s);
    if Holds(PcOf(s, w)) {
      HoldersAreEquipped(cfg, s, w);
    }
    WorkerCanMove(cfg, s, w, answer, proposal, outcome, id);
  }

  // ---- Runs ----

  /** What no later state takes back. */
  ghost predicate Extends(s: Sys, s': Sys) {
    && RowsStay(s, s')
    && FinishedStays(s, s')
    && (Truthy(s.db.run.targetUid) ==> s'.db.run.targetUid == s.db.run.targetUid)
    && (Exhausted(s.db.run) ==> Exhausted(s'.db.run) && s'.calls == s.calls)
  }

  /** Rows are never removed or given to another worker, and rows up to current_step never change. */
  ghost predicate RowsStay(s: Sys, s': Sys) {
    && Grows(s.db, s'.db)
    && forall n | n in s.db.steps ::
         && n in s'.db.steps && s'.db.steps[n].owner == s.db.steps[n].owner
         && (n <= s.db.run.currentStep ==> s'.db.steps[n] == s.db.steps[n])
  }

  /** A finished run keeps its status, its stop reason, its diagnosis and the step that completed it. */
  ghost predicate FinishedStays(s: Sys, s': Sys) {
    TerminalRun(s.db.run.status) ==>
      && s'.db.run.status == s.db.run.status && s'.db.run.stopReason == s.db.run.stopReason
      && s'.db.run.diagnosis == s.db.run.diagnosis && s'.completedBy == s.completedBy
  }

  lemma FinishedStep(cfg: Config, s: Sys, a: Action)
    requires Step(cfg, s, a).Some?
    ensures FinishedStays(s, Step(cfg, s, a).value)
  {
    match a
    case Insert(w) => InsertShape(cfg, s, w);
    case Commit(w, outcome, id) => CommitShape(cfg, s, w, outcome, id);
    case Dispatch(w) => DispatchShape(cfg, s, w);
    case Settle(w, answer) => SettleShape(cfg, s, Step(cfg, s, a).value, w, answer);
    case _ =>
  }

  /** The worker of these actions stands on the row past current_step, or touches no row. */
  lemma ActsOnTheNextRow(cfg: Config, s: Sys, w: WorkerId)
    requires Structure(cfg, s) && Holds(PcOf(s, w))
    ensures Sequence(PcOf(s, w).f) == s.db.run.currentStep + 1
  {
    assert WorkerOk(cfg, s.db, s.calls, w, s.workers[w]);
  }

  lemma CommitRowsStay(cfg: Config, s: Sys, w: WorkerId, outcome: Outcome, id: Id)
    requires Structure(cfg, s) && StepCommit(cfg, s, w, outcome, id).Some?
    ensures RowsStay(s, StepCommit(cfg, s, w, outcome, id).value)
    ensures StepCommit(cfg, s, w, outcome, id).value.db.run.currentStep <= s.db.run.currentStep + 1
  {
    CommitShape(cfg, s, w, outcome, id);
    ActsOnTheNextRow(cfg, s, w);
  }

  lemma PlainRowsStay(cfg: Config, s: Sys, a: Action)
    requires Structure(cfg, s) && Step(cfg, s, a).Some? && PlainAction(a)
    ensures RowsStay(s, Step(cfg, s, a).value)
    ensures Step(cfg, s, a).value.db.run.currentStep <= s.db.run.currentStep + 1
  {
    PlainStep(cfg, s, a);
  }

  lemma RowsStayStep(cfg: Config, s: Sys, a: Action)
    requires Structure(cfg, s) && Step(cfg, s, a).Some?
    ensures RowsStay(s, Step(cfg, s, a).value)
    ensures Step(cfg, s, a).value.db.run.currentStep <= s.db.run.currentStep + 1
  {
    if PlainAction(a) {
      PlainRowsStay(cfg, s, a);
    } else {
      match a
      case Insert(w) => InsertShape(cfg, s, w);
      case Reserve(w) => AccountShape(cfg, s, Step(cfg, s, a).value, w);
      case Settle(w, answer) => AccountShape(cfg, s, Step(cfg, s, a).value, w);
      case Dispatch(w) => DispatchRowsStay(cfg, s, w);
      case Commit(w, outcome, id) => CommitRowsStay(cfg, s, w, outcome, id);
    }
  }

  lemma DispatchRowsStay(cfg: Config, s: Sys, w: WorkerId)
    requires Structure(cfg, s) && StepDispatch(cfg, s, w).Some?
    ensures RowsStay(s, StepDispatch(cfg, s, w).value)
    ensures StepDispatch(cfg, s, w).value.db.run.currentStep <= s.db.run.currentStep + 1
  {
    DispatchShape(cfg, s, w);
    ActsOnTheNextRow(cfg, s, w);
  }

  /** One step extends the state, and moves current_step by at most one. */
  lemma StepExtends(cfg: Config, s: Sys, a: Action)
    requires Wired(cfg) && Invariant(cfg, s) && Step(cfg, s, a).Some?
    ensures Extends(s, Step(cfg, s, a).value)
    ensures Step(cfg, s, a).value.db.run.currentStep <= s.db.run.currentStep + 1
  {
    RowsStayStep(cfg, s, a);
    FinishedStep(cfg, s, a);
    if Truthy(s.db.run.targetUid) {
      UidWrittenOnce(cfg, s, a);
    }
    if Exhausted(s.db.run) {
      OverspentRunCallsNoMore(cfg, s, a);
    }
  }

  /** So does every continuation of a reachable state. */
  lemma {:induction false} RunExtends(cfg: Config, s: Sys, trace: seq<Action>)
    requires Wired(cfg) && Invariant(cfg, s) && Run(cfg, s, trace).Some?
    ensures Extends(s, Run(cfg, s, trace).value)
    decreases |trace|
  {
    if trace != [] {
      var next := Step(cfg, s, trace[0]).value;
      StepExtends(cfg, s, trace[0]);
      StepKeepsInvariant(cfg, s, trace[0]);
      RunExtends(cfg, next, trace[1..]);
      ExtendsTransitive(s, next, Run(cfg, s, trace).value);
    }
  }

  lemma ExtendsTransitive(a: Sys, b: Sys, c: Sys)
    requires Extends(a, b) && Extends(b, c)
    ensures Extends(a, c)
  {
  }

  /**
   * A call whose settlement exceeded the run's token budget ends all model calls for good, and its
   * step never starts a tool.
   */
  lemma OverspendingIsFinal(cfg: Config, s: Sys, trace: seq<Action>, n: nat)
    requires Wired(cfg) && Reachable(cfg, s) && Run(cfg, s, trace).Some?
    requires n in s.calls && s.calls[n].overspent
    ensures var s' := Run(cfg, s, trace).value;
            && s'.calls == s.calls && s'.db.run.modelCallsUsed == s.db.run.modelCallsUsed
            && n in s'.db.steps && s'.db.steps[n].invocation.None?
            && forall w :: !PcOf(s', w).InFlight?
  {
    ReachableInvariant(cfg, s);
    RunExtends(cfg, s, trace);
    RunKeepsInvariant(cfg, s, trace);
    var s' := Run(cfg, s, trace).value;
    SameCallsSameCount(cfg, s, s');
  }

  lemma SameCallsSameCount(cfg: Config, s: Sys, s': Sys)
    requires Invariant(cfg, s) && Invariant(cfg, s') && s'.calls == s.calls
    requires s.db.run.currentStep <= s'.db.run.currentStep
    ensures s'.db.run.modelCallsUsed == s.db.run.modelCallsUsed
  {
    TotalsBeyond(s.calls, s.db.run.currentStep + 1, s'.db.run.currentStep + 1);
  }

  lemma {:induction false} TotalsBeyond(calls: map<nat, ModelCall>, m: nat, n: nat)
    requires m <= n && forall k | k in calls :: k <= m
    ensures TotalsOf(calls, n) == TotalsOf(calls, m)
  {
    if m < n {
      TotalsBeyond(calls, m, n - 1);
    }
  }
}
