/**
 * The token ledger of a run: what is charged is what the calls used, a request is only issued
 * within every budget, and overspending ends all model calls.
 */
module AgentBudget {
  import opened Common
  import opened Domain
  import opened ContextMemory
  import opened ContextBuilder
  import opened AgentDecision
  import D = AgentDatabase
  import opened AgentDatabase
  import opened AgentRun
  import opened AgentStructure

  /** A call is charged its actual usage when known, and its reservation otherwise. */
  function InputCharge(call: ModelCall): int { if call.usage.Some? then call.usage.value.input else call.input }

  function OutputCharge(call: ModelCall): int { if call.usage.Some? then call.usage.value.output else call.output }

  /** Totals over the calls of the steps 1..n. */
  datatype Totals = Totals(calls: nat, input: int, output: int)

  function TotalsOf(calls: map<nat, ModelCall>, n: nat): Totals {
    if n == 0 then Totals(0, 0, 0)
    else
      var t := TotalsOf(calls, n - 1);
      if n in calls then
        Totals(t.calls + 1, t.input + InputCharge(calls[n]), t.output + OutputCharge(calls[n]))
      else t
  }

  lemma {:induction false} TotalsOfPrefix(calls: map<nat, ModelCall>, calls': map<nat, ModelCall>, n: nat)
    requires forall k | 1 <= k <= n :: (k in calls <==> k in calls') && (k in calls ==> calls[k] == calls'[k])
    ensures TotalsOf(calls, n) == TotalsOf(calls', n)
  {
    if n > 0 {
      TotalsOfPrefix(calls, calls', n - 1);
    }
  }

  /** The run's counters are the totals over its calls. */
  ghost predicate Balanced(s: Sys) {
    var run := s.db.run;
    TotalsOf(s.calls, run.currentStep + 1) == Totals(run.modelCallsUsed, run.inputUsed, run.outputUsed)
  }

  /** While a request is out, its reservation is inside the budget. */
  ghost predicate InBudget(s: Sys) {
    && s.db.run.modelCallsUsed <= s.db.run.maxModelCalls
    && forall w | w in s.workers && s.workers[w].pc.InFlight? :: !Exhausted(s.db.run)
  }

  /** An overspent call belongs to a step that started no tool, and leaves the budget exceeded with no request out. */
  ghost predicate OverspentIsFinal(s: Sys) {
    && (forall n | n in s.calls && s.calls[n].overspent ::
          && Exhausted(s.db.run)
          && n in s.db.steps && s.db.steps[n].invocation.None?
          && forall w | w in s.workers :: !s.workers[w].pc.InFlight?)
    && (forall w | w in s.workers && MayAct(s.workers[w].pc) && Sequence(s.workers[w].pc.f) in s.calls ::
          !s.calls[Sequence(s.workers[w].pc.f)].overspent)
  }

  ghost predicate Ledger(s: Sys) { Balanced(s) && InBudget(s) && OverspentIsFinal(s) }

  /** Steps that make no call and settle none. */
  lemma LedgerFrame(s: Sys, s': Sys)
    requires Ledger(s) && s.db.run.currentStep + 2 !in s.calls
    requires s'.calls == s.calls && SameTokens(s.db.run, s'.db.run) && SameLimits(s.db.run, s'.db.run)
    requires s.db.run.currentStep <= s'.db.run.currentStep <= s.db.run.currentStep + 1
    requires forall n | n in s.calls && s.calls[n].overspent ::
               n in s'.db.steps && s'.db.steps[n].invocation.None?
    requires forall w | w in s'.workers ::
               && (s'.workers[w].pc.InFlight? ==> PcOf(s, w).InFlight?)
               && (MayAct(s'.workers[w].pc) ==>
                     || (MayAct(PcOf(s, w)) && PcOf(s, w).f == s'.workers[w].pc.f)
                     || Sequence(s'.workers[w].pc.f) !in s.calls)
    ensures Ledger(s')
  {
  }

  lemma CallsBounded(cfg: Config, s: Sys, n: nat)
    requires Structure(cfg, s) && n > s.db.run.currentStep + 1
    ensures n !in s.calls
  {
  }

  lemma PlainKeepsLedger(s: Sys, s': Sys)
    requires Ledger(s) && s.db.run.currentStep + 2 !in s.calls && Plain(s, s')
    ensures Ledger(s')
  {
    forall w | w in s'.workers ensures PlainPc(PcOf(s, w), s'.workers[w].pc) {}
    LedgerFrame(s, s');
  }

  /** An input limit that keeps a request within the window, the tokens left and the configured limit. */
  predicate Affordable(m: ModelConfig, run: RunRow, limit: int) {
    && limit + m.outputTokens + m.margin <= m.window
    && limit + m.outputTokens + m.margin <= TokensLeft(run)
    && limit <= m.inputLimit
  }

  /** A budget is given exactly when a call and a positive limit are left, and it is the largest affordable one. */
  lemma BudgetIsLargestAffordable(m: ModelConfig, run: RunRow)
    requires m.window > 0 && m.inputLimit > 0 && m.outputTokens > 0 && m.margin >= 0
    ensures Budget(Some(m), run).Ok? <==> run.modelCallsUsed < run.maxModelCalls && Affordable(m, run, 1)
    ensures Budget(Some(m), run).Ok? ==>
              var b := Budget(Some(m), run).value;
              && b.inputLimit > 0 && b.outputTokens == m.outputTokens && b.safetyMargin == m.margin
              && forall limit :: Affordable(m, run, limit) <==> limit <= b.inputLimit
    ensures Budget(Some(m), run).Err? ==> Budget(Some(m), run).error.ModelBudgetExhausted?
  {
  }

  /** What the budget and the size test together bound. */
  lemma RequestWithinBudget(cfg: Config, f: Frame)
    requires Wired(cfg) && FrameOk(cfg, f) && f.budget.Some?
    ensures cfg.reasoner.WithModel? && cfg.reasoner.settings.Some?
    ensures var m := cfg.reasoner.settings.value;
            && cfg.rules.estimate(f.context) + m.outputTokens + m.margin <= m.window
            && ReservedInput(cfg, f) + f.budget.value.outputTokens <= TokensLeft(f.snap.run)
            && f.budget.value.outputTokens == m.outputTokens && f.budget.value.safetyMargin == m.margin
    ensures f.snap.run.modelCallsUsed < f.snap.run.maxModelCalls
    ensures TokensLeft(f.snap.run) > 0
  {
    var request := RequestOf(cfg, f.snap, f.now, f.budget);
    assert Build(cfg.rules, request) == Ok(f.context);
    BuiltContextFits(cfg.rules, request);
  }

  /** A reservation is inside the budget both in tokens and in calls, against the committed counters. */
  lemma ReserveWithinBudget(cfg: Config, s: Sys, w: WorkerId)
    requires Wired(cfg) && Structure(cfg, s) && StepReserve(cfg, s, w).Some?
    ensures var s', f := StepReserve(cfg, s, w).value, PcOf(s, w).f;
            && !Exhausted(s.db.run) && !Exhausted(s'.db.run)
            && s'.db.run.modelCallsUsed <= s'.db.run.maxModelCalls
            && f.snap.run.currentStep == s.db.run.currentStep
            && Sequence(f) !in s.calls && Sequence(f) in s.db.steps && s.db.steps[Sequence(f)].invocation.None?
  {
    var f := PcOf(s, w).f;
    assert WorkerOk(cfg, s.db, s.calls, w, s.workers[w]);
    RequestWithinBudget(cfg, f);
  }

  lemma ReserveKeepsLedger(cfg: Config, s: Sys, w: WorkerId)
    requires Wired(cfg) && Structure(cfg, s) && Ledger(s) && StepReserve(cfg, s, w).Some?
    ensures Ledger(StepReserve(cfg, s, w).value)
  {
    var s' := StepReserve(cfg, s, w).value;
    ReserveWithinBudget(cfg, s, w);
    ReserveBalances(cfg, s, w);
    AccountShape(cfg, s, s', w);
    NewCallNotOverspent(s, s', w);
  }

  lemma ReserveBalances(cfg: Config, s: Sys, w: WorkerId)
    requires Balanced(s) && StepReserve(cfg, s, w).Some?
    requires PcOf(s, w).f.snap.run.currentStep == s.db.run.currentStep && Sequence(PcOf(s, w).f) !in s.calls
    ensures Balanced(StepReserve(cfg, s, w).value)
  {
    var s' := StepReserve(cfg, s, w).value;
    TotalsOfPrefix(s.calls, s'.calls, s.db.run.currentStep);
  }

  lemma NewCallNotOverspent(s: Sys, s': Sys, w: WorkerId)
    requires OverspentIsFinal(s) && !Exhausted(s.db.run) && PcOf(s, w).Deciding?
    requires w in s'.workers && s'.workers == s.workers[w := s'.workers[w]]
    requires Holds(s'.workers[w].pc) && s'.workers[w].pc.f == PcOf(s, w).f
    requires Sequence(PcOf(s, w).f) in s'.calls && !s'.calls[Sequence(PcOf(s, w).f)].overspent
    requires s'.calls == s.calls[Sequence(PcOf(s, w).f) := s'.calls[Sequence(PcOf(s, w).f)]]
    ensures OverspentIsFinal(s')
  {
    assert forall n | n in s.calls :: !s.calls[n].overspent;
  }

  /** Only the worker waiting for the answer can be in flight. */
  lemma OneInFlight(cfg: Config, s: Sys, w: WorkerId, x: WorkerId)
    requires Structure(cfg, s) && Holds(PcOf(s, w)) && Holds(PcOf(s, x))
    ensures w == x
  {
    assert WorkerOk(cfg, s.db, s.calls, w, s.workers[w]) && WorkerOk(cfg, s.db, s.calls, x, s.workers[x]);
  }

  lemma SettleKeepsLedger(cfg: Config, s: Sys, w: WorkerId, answer: Answer)
    requires Structure(cfg, s) && Ledger(s) && StepSettle(cfg, s, w, answer).Some?
    ensures Ledger(StepSettle(cfg, s, w, answer).value)
  {
    var s', f := StepSettle(cfg, s, w, answer).value, PcOf(s, w).f;
    assert WorkerOk(cfg, s.db, s.calls, w, s.workers[w]);
    TotalsOfPrefix(s.calls, s'.calls, s.db.run.currentStep);
    forall x | x in s'.workers ensures !s'.workers[x].pc.InFlight? {
      if x != w && Holds(s'.workers[x].pc) {
        OneInFlight(cfg, s, w, x);
      }
    }
    assert forall n | n in s.calls :: !s.calls[n].overspent;
  }

  lemma InsertKeepsLedger(cfg: Config, s: Sys, w: WorkerId)
    requires Structure(cfg, s) && Ledger(s) && StepInsert(cfg, s, w).Some?
    ensures Ledger(StepInsert(cfg, s, w).value)
  {
    InsertShape(cfg, s, w);
    CallsBounded(cfg, s, s.db.run.currentStep + 2);
    var f := PcOf(s, w).f;
    assert Sequence(f) !in s.db.steps ==> Sequence(f) !in s.calls;
    LedgerFrame(s, StepInsert(cfg, s, w).value);
  }

  lemma DispatchKeepsLedger(cfg: Config, s: Sys, w: WorkerId)
    requires Structure(cfg, s) && Ledger(s) && StepDispatch(cfg, s, w).Some?
    ensures Ledger(StepDispatch(cfg, s, w).value)
  {
    var s' := StepDispatch(cfg, s, w).value;
    assert WorkerOk(cfg, s.db, s.calls, w, s.workers[w]);
    DispatchShape(cfg, s, w);
    CallsBounded(cfg, s, s.db.run.currentStep + 2);
    LedgerFrame(s, s');
  }

  lemma CommitKeepsLedger(cfg: Config, s: Sys, w: WorkerId, outcome: Outcome, id: Id)
    requires Structure(cfg, s) && Ledger(s) && StepCommit(cfg, s, w, outcome, id).Some?
    ensures Ledger(StepCommit(cfg, s, w, outcome, id).value)
  {
    assert WorkerOk(cfg, s.db, s.calls, w, s.workers[w]);
    CommitShape(cfg, s, w, outcome, id);
    CallsBounded(cfg, s, s.db.run.currentStep + 2);
    LedgerFrame(s, StepCommit(cfg, s, w, outcome, id).value);
  }

  lemma StepKeepsLedger(cfg: Config, s: Sys, a: Action)
    requires Wired(cfg) && Structure(cfg, s) && Ledger(s) && Step(cfg, s, a).Some?
    ensures Ledger(Step(cfg, s, a).value)
  {
    match a
    case Insert(w) => InsertKeepsLedger(cfg, s, w);
    case Reserve(w) => ReserveKeepsLedger(cfg, s, w);
    case Settle(w, answer) => SettleKeepsLedger(cfg, s, w, answer);
    case Dispatch(w) => DispatchKeepsLedger(cfg, s, w);
    case Commit(w, outcome, id) => CommitKeepsLedger(cfg, s, w, outcome, id);
    case _ =>
      PlainStep(cfg, s, a);
      CallsBounded(cfg, s, s.db.run.currentStep + 2);
      PlainKeepsLedger(s, Step(cfg, s, a).value);
  }

  // ---- Overspending ----

  /** Once the tokens used exceed the run's budget with no request out, no step makes another model call. */
  lemma OverspentRunCallsNoMore(cfg: Config, s: Sys, a: Action)
    requires Wired(cfg) && Structure(cfg, s) && Ledger(s) && Step(cfg, s, a).Some?
    requires Exhausted(s.db.run)
    ensures var s' := Step(cfg, s, a).value;
            && Exhausted(s'.db.run)
            && s'.calls == s.calls
            && s'.db.run.modelCallsUsed == s.db.run.modelCallsUsed
  {
    match a
    case Insert(w) => InsertShape(cfg, s, w);
    case Reserve(w) => ReserveWithinBudget(cfg, s, w);
    case Settle(w, answer) =>
    case Dispatch(w) => DispatchShape(cfg, s, w);
    case Commit(w, outcome, id) => CommitShape(cfg, s, w, outcome, id);
    case _ => PlainStep(cfg, s, a);
  }
}
