/**
 * One worker of an agent run as it executes: `_claim`, `_decide`, `process` and `_finish` changing the
 * run, step and invocation rows in place, while other workers act between its transactions.
 */
module AgentWorker {
  import opened Common
  import opened Domain
  import opened ContextMemory
  import opened ContextBuilder
  import opened AgentDecision
  import D = AgentDatabase
  import opened AgentDatabase
  import opened AgentRun
  import opened AgentStructure
  import opened AgentGuarantees
  import E = AgentEffects

  /** What comes from outside in each round: the model's answer, the rules' decision, the tool's outcome. */
  datatype Oracle = Oracle(answer: nat -> Answer, proposal: nat -> Decision, outcome: nat -> Outcome)

  /** What the methods below use of the invariant. */
  ghost predicate Suffices(cfg: Config, inv: Sys -> bool) {
    && (forall s, a | inv(s) && Step(cfg, s, a).Some? :: inv(Step(cfg, s, a).value))
    && (forall s, w | inv(s) :: RoundsOf(s, w) <= s.db.run.maxSteps)
    && (forall s, w | inv(s) && Holds(PcOf(s, w)) :: Equipped(cfg, s, PcOf(s, w)))
  }

  lemma InvariantSuffices(cfg: Config, inv: Sys -> bool)
    requires Wired(cfg) && forall s :: inv(s) <==> Invariant(cfg, s)
    ensures Suffices(cfg, inv)
  {
    forall s, a | inv(s) && Step(cfg, s, a).Some? ensures inv(Step(cfg, s, a).value) {
      StepKeepsInvariant(cfg, s, a);
    }
    forall s, w | inv(s) ensures RoundsOf(s, w) <= s.db.run.maxSteps {
      if w in s.workers {
        assert WorkerOk(cfg, s.db, s.calls, w, s.workers[w]);
      }
    }
    forall s, w | inv(s) && Holds(PcOf(s, w)) ensures Equipped(cfg, s, PcOf(s, w)) {
      HoldersAreEquipped(cfg, s, w);
    }
  }

  lemma KeepsInv(cfg: Config, inv: Sys -> bool, s: Sys, a: Action, s': Sys)
    requires Suffices(cfg, inv) && inv(s) && Step(cfg, s, a) == Some(s')
    ensures inv(s')
  {
  }

  /** What committing a tool result does, once its rows are known. */
  lemma CommitIs(cfg: Config, s: Sys, w: WorkerId, outcome: Outcome, id: Id, ok: bool, db: Db, pc: Pc)
    requires PcOf(s, w).ToolRunning? && FreshId(s.db, id) && Equipped(cfg, s, PcOf(s, w))
    requires D.CommitTool(s.db, Sequence(PcOf(s, w).f), outcome, id, cfg.runId) == if ok then Ok(db) else Err(IntegrityError)
    requires !ok ==> db == s.db
    requires pc == if !ok then Crashed else if outcome.Result? then LoopTop
                   else Finishing(RunStatus.AwaitingHuman, outcome.code, None, 0)
    ensures StepCommit(cfg, s, w, outcome, id) ==
              Some(s.(db := db, workers := s.workers[w := Worker(pc, RoundsOf(s, w) + (if pc.LoopTop? then 1 else 0))]))
  {
  }

  /** `inv` stands for AgentGuarantees.Invariant; the ghost fields are history about everybody. */
  class AgentWorker {
    const cfg: Config
    const me: WorkerId
    ghost const inv: Sys -> bool
    var run: RunRow
    var steps: map<nat, StepRow>
    var evidence: seq<Evidence>
    var now: int
    ghost var workers: map<WorkerId, Worker>
    ghost var calls: map<nat, ModelCall>
    ghost var basis: map<nat, Basis>
    ghost var completedBy: Option<nat>

    function Rows(): Db
      reads this
    {
      Db(run, steps, evidence, now)
    }

    ghost function Now(): Sys
      reads this
    {
      Sys(Rows(), workers, calls, basis, completedBy)
    }

    ghost function At(): Pc
      reads this
    {
      PcOf(Now(), me)
    }

    ghost predicate Valid()
      reads this
    {
      Suffices(cfg, inv) && inv(Now())
    }

    /** The run as `create_agent_run` inserted it. */
    constructor (config: Config, id: WorkerId, row: RunRow)
      requires Wired(config) && Init(config, Sys(Db(row, map[], [], 0), map[], map[], map[], None))
      ensures Valid() && At().Idle? && cfg == config && me == id && run == row
      ensures forall s :: inv(s) <==> Invariant(config, s)
    {
      cfg, me, run := config, id, row;
      steps, evidence, now := map[], [], 0;
      workers, calls, basis, completedBy := map[], map[], map[], None;
      inv := (s: Sys) => Invariant(config, s);
      new;
      InvariantSuffices(cfg, inv);
      InitInvariant(cfg, Now());
    }

    /** Anything the others may do in the meantime; nothing is one possibility. */
    method Others()
      requires Valid()
      modifies this
      ensures Valid() && At() == old(At()) && RoundsOf(Now(), me) == old(RoundsOf(Now(), me))
      ensures run.maxSteps == old(run.maxSteps)
      ensures TerminalRun(old(run.status)) ==> run.status == old(run.status)
    {
    }

    /** History: this worker moves to `pc`. */
    ghost method Move(pc: Pc)
      modifies this`workers
      ensures Now() == Goto(old(Now()), Rows(), me, pc)
    {
      workers := workers[me := Worker(pc, RoundsOf(Now(), me))];
    }

    // ---- Transactions on the run row ----

    /** The rows written by `_claim`. */
    method ClaimRows(alert: Evidence)
      modifies this`run, this`evidence
      ensures Rows() == D.Claim(old(Rows()), me, alert)
    {
      if !TerminalRun(run.status) && !LeaseHeldByOther(run, me, now) {
        run := run.(leaseOwner := Some(me), leaseExpires := Some(now + LEASE_SECONDS));
        if run.status.Queued? {
          run := run.(status := RunStatus.Running, startedAt := Some(now));
          if run.deadline.None? {
            run := run.(deadline := Some(now + run.timeout));
          }
          if !(exists e | e in evidence :: e.kind.AlertPayload?) {
            evidence := evidence + [alert];
          }
        }
      }
    }

    /** `_claim`. */
    method Claim(id: Id, content: Content) returns (claimed: bool)
      requires Valid() && At().Idle? && FreshId(Rows(), id)
      modifies this
      ensures Valid() && At() == (if claimed then LoopTop else Idle) && RoundsOf(Now(), me) == 0
      ensures Rows() == D.Claim(old(Rows()), me, Evidence(id, cfg.runId, AlertPayload, "alert", content, Some(now), None))
      ensures claimed <==> run.status.Running? && run.leaseOwner == Some(me)
    {
      ghost var before := Now();
      ClaimRows(Evidence(id, cfg.runId, AlertPayload, "alert", content, Some(now), None));
      claimed := run.status.Running? && run.leaseOwner == Some(me);
      workers := workers[me := Worker(if claimed then LoopTop else Idle, 0)];
      assert StepClaim(cfg, before, me, id, content) == Some(Now());
      KeepsInv(cfg, inv, before, Action.Claim(me, id, content), Now());
    }

    /** `_finish`. */
    method Finish(status: RunStatus, reason: string, diagnosis: Option<Diagnosis>, step: nat)
      requires Valid() && At() == Finishing(status, reason, diagnosis, step)
      modifies this
      ensures Valid() && At().Idle?
      ensures Rows() == D.Finish(old(Rows()), status, reason, diagnosis)
      ensures TerminalRun(status) ==> TerminalRun(run.status)
      ensures run.maxSteps == old(run.maxSteps)
    {
      ghost var before := Now();
      if !TerminalRun(run.status) {
        run := run.(status := status, stopReason := reason, leaseOwner := None, leaseExpires := None);
        if diagnosis.Some? {
          run := run.(diagnosis := diagnosis);
        }
        if status.Completed? {
          completedBy := Some(step);
        }
      }
      Move(Idle);
      assert StepFinish(cfg, before, me) == Some(Now());
      KeepsInv(cfg, inv, before, Action.Finish(me), Now());
    }

    /** `request_cancel`, from any process. */
    method RequestCancel()
      requires Valid()
      modifies this
      ensures Valid() && At() == old(At())
      ensures Rows() == D.RequestCancel(old(Rows()))
    {
      ghost var before := Now();
      if !TerminalRun(run.status) {
        run := run.(cancelRequested := true);
        if run.status.Queued? {
          run := run.(status := RunStatus.Cancelled, stopReason := "USER_CANCELLED");
        }
      }
      KeepsInv(cfg, inv, before, Action.RequestCancel, Now());
    }

    /** The handler of a job that raised. */
    method FailRun()
      requires Valid() && At().Crashed?
      modifies this
      ensures Valid() && At().Idle? && Rows() == D.FailRun(old(Rows())) && run.maxSteps == old(run.maxSteps)
      ensures TerminalRun(run.status)
    {
      ghost var before := Now();
      if !TerminalRun(run.status) {
        run := run.(status := RunStatus.Failed);
      }
      Move(Idle);
      KeepsInv(cfg, inv, before, Action.FailRun(me), Now());
    }

    // ---- Transactions on the step row ----

    /** The head of an iteration: snapshot, guards, budget and context. */
    method Observe() returns (pc: Pc)
      requires Valid() && At().LoopTop?
      modifies this`workers
      ensures Valid() && At() == pc == Prepare(cfg, Snapshot(run, steps, evidence), now)
      ensures pc.Ready? || (pc.Finishing? && TerminalRun(pc.status))
      ensures RoundsOf(Now(), me) == old(RoundsOf(Now(), me))
    {
      ghost var before := Now();
      pc := Prepare(cfg, Snapshot(run, steps, evidence), now);
      Move(pc);
      assert StepObserve(cfg, before, me) == Some(Now());
      KeepsInv(cfg, inv, before, Action.Observe(me), Now());
    }

    /** The step row insert; refused when another worker took the sequence. */
    method InsertStep(f: Frame) returns (inserted: bool)
      requires Valid() && At() == Ready(f)
      modifies this`steps, this`workers
      ensures Valid() && RoundsOf(Now(), me) == old(RoundsOf(Now(), me))
      ensures inserted <==> Sequence(f) !in old(steps)
      ensures inserted ==> At() == (if f.budget.Some? then Deciding(f) else Ruling(f))
      ensures inserted ==> D.InsertStep(old(Rows()), Sequence(f), me, f.context.selection.conflicting) == Ok(Rows())
      ensures !inserted ==> At().Crashed? && Rows() == old(Rows())
    {
      ghost var before := Now();
      inserted := Sequence(f) !in steps;
      if inserted {
        var row := StepRow(me, f.context.selection.conflicting, StepStatus.Running, None, "", [], "", None);
        steps := steps[Sequence(f) := row];
        Move(if f.budget.Some? then Deciding(f) else Ruling(f));
      } else {
        Move(Crashed);
      }
      assert StepInsert(cfg, before, me) == Some(Now());
      KeepsInv(cfg, inv, before, Action.Insert(me), Now());
    }

    /** The reservation of `_decide`. */
    method Reserve(f: Frame)
      requires Valid() && At() == Deciding(f) && f.budget.Some?
      modifies this`run, this`workers, this`calls
      ensures Valid() && At() == InFlight(f) && RoundsOf(Now(), me) == old(RoundsOf(Now(), me))
      ensures Rows() == D.Reserve(old(Rows()), ReservedInput(cfg, f), f.budget.value.outputTokens)
    {
      ghost var before := Now();
      var input, output := ReservedInput(cfg, f), f.budget.value.outputTokens;
      run := run.(modelCallsUsed := run.modelCallsUsed + 1);
      run := run.(inputUsed := run.inputUsed + input, outputUsed := run.outputUsed + output);
      calls := calls[Sequence(f) := ModelCall(input, output, None, false)];
      Move(InFlight(f));
      assert StepReserve(cfg, before, me) == Some(Now());
      KeepsInv(cfg, inv, before, Action.Reserve(me), Now());
    }

    method SettleRows(input: int, output: int, usage: Option<Usage>)
      modifies this`run
      ensures Rows() == D.Settle(old(Rows()), input, output, usage)
    {
      if usage.Some? {
        run := run.(inputUsed := run.inputUsed + (usage.value.input - input));
        run := run.(outputUsed := run.outputUsed + (usage.value.output - output));
      }
    }

    /** The settlement of `_decide`. */
    method Settle(f: Frame, answer: Answer) returns (pc: Pc)
      requires Valid() && At() == InFlight(f) && f.budget.Some?
      modifies this`run, this`workers, this`calls
      ensures Valid() && At() == pc && RoundsOf(Now(), me) == old(RoundsOf(Now(), me))
      ensures Rows() == D.Settle(old(Rows()), ReservedInput(cfg, f), f.budget.value.outputTokens, answer.usage)
      ensures pc == Ruling(f) || pc == Undecided(f, ModelBudgetExhausted) || (pc.Decided? && pc.f == f)
      ensures run.maxTokens < run.inputUsed + run.outputUsed <==> pc == Undecided(f, ModelBudgetExhausted)
      ensures pc.Decided? ==> answer.Answered? && pc.d == answer.decision && ModelDecisionStands(cfg, f.context, pc.d)
    {
      ghost var before := Now();
      var input, output := ReservedInput(cfg, f), f.budget.value.outputTokens;
      SettleRows(input, output, answer.usage);
      var exhausted := run.inputUsed + run.outputUsed > run.maxTokens;
      var stands := answer.Answered? && ModelDecisionStands(cfg, f.context, answer.decision);
      if exhausted {
        pc := Undecided(f, ModelBudgetExhausted);
      } else if stands {
        pc := Decided(f, answer.decision, Basis(f.now, f.snap.run.targetUid));
      } else {
        pc := Ruling(f);
      }
      calls := calls[Sequence(f) := ModelCall(input, output, answer.usage, exhausted)];
      Move(pc);
      assert StepSettle(cfg, before, me, answer) == Some(Now());
      KeepsInv(cfg, inv, before, Action.Settle(me, answer), Now());
    }

    /** The fallback of `_decide`. */
    method Rule(f: Frame, proposal: Decision) returns (pc: Pc)
      requires Valid() && At() == Ruling(f)
      modifies this`workers
      ensures Valid() && At() == pc == RuleOutcome(cfg, f, now, proposal)
      ensures RoundsOf(Now(), me) == old(RoundsOf(Now(), me))
    {
      ghost var before := Now();
      pc := RuleOutcome(cfg, f, now, proposal);
      Move(pc);
      assert StepRule(cfg, before, me, proposal) == Some(Now());
      KeepsInv(cfg, inv, before, Action.Rule(me, proposal), Now());
    }

    /** The failed decision: the step ends and the run advances past it. */
    method FailStep(f: Frame, error: Error) returns (end: Pc)
      requires Valid() && At() == Undecided(f, error)
      modifies this
      ensures Valid() && At() == end && RoundsOf(Now(), me) == old(RoundsOf(Now(), me))
      ensures Sequence(f) in old(steps)
      ensures Rows() == AdvanceStep(old(Rows()), Sequence(f), StepStatus.Failed, CodeOf(error))
      ensures end.Finishing? && end.status == (if error.ModelBudgetExhausted? then RunStatus.Stopped else RunStatus.Failed)
    {
      ghost var before := Now();
      assert Equipped(cfg, Now(), At());
      Advance(Sequence(f), StepStatus.Failed, CodeOf(error));
      end := Finishing(if error.ModelBudgetExhausted? then RunStatus.Stopped else RunStatus.Failed, CodeOf(error), None, 0);
      Move(end);
      assert StepFail(cfg, before, me) == Some(Now());
      KeepsInv(cfg, inv, before, Action.FailStep(me), Now());
    }

    method CloseStep(sequence: nat, status: StepStatus, code: string)
      requires sequence in steps
      modifies this`steps
      ensures Rows() == D.CloseStep(old(Rows()), sequence, status, code)
    {
      var row := steps[sequence];
      row := row.(status := status);
      row := row.(errorCode := code);
      steps := steps[sequence := row];
    }

    /** The step row closed together with `current_step`. */
    method Advance(sequence: nat, status: StepStatus, code: string)
      requires sequence in steps
      modifies this`steps, this`run
      ensures Rows() == AdvanceStep(old(Rows()), sequence, status, code)
    {
      CloseStep(sequence, status, code);
      run := run.(currentStep := sequence);
    }

    /** The decision written into its step row. */
    method Record(f: Frame, d: Decision, judged: Basis)
      requires Valid() && At() == Decided(f, d, judged)
      modifies this`steps, this`workers, this`basis
      ensures Valid() && At() == Recorded(f, d, judged) && RoundsOf(Now(), me) == old(RoundsOf(Now(), me))
      ensures Sequence(f) in old(steps) && Rows() == RecordDecision(old(Rows()), Sequence(f), d)
    {
      ghost var before := Now();
      assert Equipped(cfg, Now(), At());
      var row := steps[Sequence(f)];
      steps := steps[Sequence(f) := row.(kind := Some(d.kind), summary := d.summary, evidenceIds := d.evidenceIds)];
      basis := basis[Sequence(f) := judged];
      Move(Recorded(f, d, judged));
      assert StepRecord(cfg, before, me) == Some(Now());
      KeepsInv(cfg, inv, before, Action.Record(me), Now());
    }

    /** The look at the run before acting on the decision. */
    method Check(f: Frame, d: Decision, judged: Basis) returns (pc: Pc)
      requires Valid() && At() == Recorded(f, d, judged)
      modifies this`workers
      ensures Valid() && At() == pc && RoundsOf(Now(), me) == old(RoundsOf(Now(), me))
      ensures pc.Idle? <==> TerminalRun(run.status)
      ensures pc.Idle? || pc == Ending(f, run.cancelRequested) || pc == Cleared(f, d, judged)
      ensures pc.Cleared? ==> !run.cancelRequested && (run.deadline.None? || now < run.deadline.value)
    {
      ghost var before := Now();
      if TerminalRun(run.status) {
        pc := Idle;
      } else if run.cancelRequested || (run.deadline.Some? && run.deadline.value <= now) {
        pc := Ending(f, run.cancelRequested);
      } else {
        pc := Cleared(f, d, judged);
      }
      Move(pc);
      assert StepCheck(cfg, before, me) == Some(Now());
      KeepsInv(cfg, inv, before, Action.Check(me), Now());
    }

    /** A cancelled or expired run: the step is denied and the run not advanced. */
    method End(f: Frame, cancelled: bool) returns (end: Pc)
      requires Valid() && At() == Ending(f, cancelled)
      modifies this`steps, this`workers
      ensures Valid() && At() == end && RoundsOf(Now(), me) == old(RoundsOf(Now(), me))
      ensures end.Finishing? && end.status == (if cancelled then RunStatus.Cancelled else RunStatus.Stopped)
      ensures end.reason == (if cancelled then "USER_CANCELLED" else "RUN_DEADLINE_EXCEEDED")
      ensures E.Closed(old(Rows()), Rows(), Sequence(f), StepStatus.Denied, end.reason, false)
    {
      ghost var before := Now();
      assert Equipped(cfg, Now(), At());
      var reason := if cancelled then "USER_CANCELLED" else "RUN_DEADLINE_EXCEEDED";
      CloseStep(Sequence(f), StepStatus.Denied, reason);
      end := Finishing(if cancelled then RunStatus.Cancelled else RunStatus.Stopped, reason, None, 0);
      Move(end);
      assert StepEnd(cfg, before, me) == Some(Now());
      KeepsInv(cfg, inv, before, Action.End(me), Now());
    }

    /** Acting on a cleared decision: an end of the run, a refused call, or a started one. */
    method Dispatch(f: Frame, d: Decision, judged: Basis) returns (pc: Pc)
      requires Valid() && At() == Cleared(f, d, judged)
      modifies this
      ensures Valid() && At() == pc && RoundsOf(Now(), me) == old(RoundsOf(Now(), me))
      ensures Sequence(f) in old(steps) && Dispatched(cfg, old(Rows()), f, d) == Some((Rows(), pc))
      ensures (pc.Finishing? && TerminalRun(pc.status)) || pc == ToolRunning(f, d)
      ensures pc.ToolRunning? <==>
                && d.kind.CallTool? && d.tool.Some?
                && cfg.evaluate(InputOf(f, d)).Allow?
      ensures run.maxSteps == old(run.maxSteps)
    {
      ghost var before := Now();
      assert Equipped(cfg, Now(), At());
      var q := Sequence(f);
      if d.kind.CallTool? {
        var policy := cfg.evaluate(InputOf(f, d));
        if policy.Allow? {
          StartTool(q, d.tool.value, d.arguments);
          pc := ToolRunning(f, d);
        } else {
          Advance(q, StepStatus.Denied, policy.reason);
          pc := if policy.Deny? then GiveUp(policy.reason) else Finishing(RunStatus.AwaitingHuman, policy.reason, None, 0);
        }
      } else {
        Advance(q, StepStatus.Succeeded, "");
        pc := Conclusion(f, d);
      }
      Move(pc);
      assert StepDispatch(cfg, before, me) == Some(Now());
      KeepsInv(cfg, inv, before, Action.Dispatch(me), Now());
    }

    /** The invocation row, the tool counter and the lease. */
    method StartTool(sequence: nat, tool: string, arguments: Content)
      requires sequence in steps && steps[sequence].invocation.None?
      modifies this`steps, this`run
      ensures D.StartTool(old(Rows()), sequence, tool, arguments, cfg.sanitizeArguments(arguments)) == Ok(Rows())
    {
      var clean := cfg.sanitizeArguments(arguments);
      var invocation := Invocation(tool, arguments, clean, InvocationStatus.Running, None, "");
      steps := steps[sequence := steps[sequence].(invocation := Some(invocation))];
      run := run.(toolCallsUsed := run.toolCallsUsed + 1);
      run := run.(leaseExpires := Some(now + LEASE_SECONDS));
    }

    /** The rows of a tool result: invocation, step, evidence, current_step and the bound uid. */
    method CommitRows(sequence: nat, outcome: Outcome, id: Id) returns (ok: bool)
      requires sequence in steps && steps[sequence].invocation.Some?
      modifies this`run, this`steps, this`evidence
      ensures D.CommitTool(old(Rows()), sequence, outcome, id, cfg.runId) == if ok then Ok(Rows()) else Err(IntegrityError)
      ensures ok <==> !E.AlreadyStored(old(evidence), old(steps[sequence].invocation.value.tool), outcome)
      ensures ok ==> E.Committed(old(Rows()), Rows(), sequence, outcome, id, cfg.runId)
      ensures !ok ==> Rows() == old(Rows())
      ensures run.maxSteps == old(run.maxSteps)
    {
      E.CommitEffect(Rows(), sequence, outcome, id, cfg.runId);
      var step := steps[sequence];
      var invocation := step.invocation.value;
      var row := OutcomeEvidence(Rows(), outcome, invocation.tool, id, cfg.runId);
      if SameContent(Rows(), row) {
        return false;
      }
      evidence := evidence + [row];
      if outcome.Result? {
        invocation := invocation.(status := InvocationStatus.Succeeded, evidence := Some(id));
        step := step.(status := StepStatus.Succeeded);
        if invocation.tool == POD_STATUS_TOOL && Has(outcome.content, "uid") && !Truthy(run.targetUid) {
          run := run.(targetUid := outcome.content["uid"]);
        }
      } else {
        invocation := invocation.(
          status := if outcome.code == "TOOL_TRANSIENT_ERROR" then TimedOut else InvocationStatus.Failed,
          evidence := Some(id), errorCode := outcome.code);
        step := step.(status := StepStatus.Failed, errorCode := outcome.code);
      }
      steps := steps[sequence := step.(invocation := Some(invocation))];
      run := run.(currentStep := sequence);
      return true;
    }

    /** The result of a call, committed with its evidence row; refused when that evidence exists. */
    method CommitTool(f: Frame, d: Decision, outcome: Outcome, id: Id) returns (pc: Pc)
      requires Valid() && At() == ToolRunning(f, d) && FreshId(Rows(), id)
      modifies this
      ensures Valid() && At() == pc
      ensures Sequence(f) in old(steps) && old(steps)[Sequence(f)].invocation.Some?
      ensures pc.Crashed? <==> E.AlreadyStored(old(evidence), old(steps)[Sequence(f)].invocation.value.tool, outcome)
      ensures if pc.Crashed? then Rows() == old(Rows())
              else E.Committed(old(Rows()), Rows(), Sequence(f), outcome, id, cfg.runId)
      ensures !pc.Crashed? ==>
                if outcome.Result? then pc == LoopTop else E.Gives(pc, RunStatus.AwaitingHuman, outcome.code)
      ensures pc.LoopTop? || (pc.Finishing? && TerminalRun(pc.status)) || pc.Crashed?
      ensures RoundsOf(Now(), me) == old(RoundsOf(Now(), me)) + (if pc.LoopTop? then 1 else 0)
      ensures run.maxSteps == old(run.maxSteps)
    {
      ghost var before := Now();
      assert Equipped(cfg, Now(), At());
      var committed := CommitRows(Sequence(f), outcome, id);
      ghost var rows := Rows();
      if !committed {
        pc := Crashed;
      } else {
        pc := if outcome.Result? then LoopTop else Finishing(RunStatus.AwaitingHuman, outcome.code, None, 0);
      }
      EndCommit(before, outcome, id, committed, pc);
      assert Rows() == rows;
    }

    /** History of a commit: where it leaves this worker. */
    ghost method EndCommit(before: Sys, outcome: Outcome, id: Id, committed: bool, pc: Pc)
      requires Suffices(cfg, inv) && inv(before) && Now() == before.(db := Rows())
      requires PcOf(before, me).ToolRunning? && FreshId(before.db, id) && Equipped(cfg, before, PcOf(before, me))
      requires D.CommitTool(before.db, Sequence(PcOf(before, me).f), outcome, id, cfg.runId)
               == if committed then Ok(Rows()) else Err(IntegrityError)
      requires !committed ==> Rows() == before.db
      requires pc == if !committed then Crashed else if outcome.Result? then LoopTop
                     else Finishing(RunStatus.AwaitingHuman, outcome.code, None, 0)
      modifies this`workers
      ensures Valid() && At() == pc && Rows() == old(Rows())
      ensures RoundsOf(Now(), me) == RoundsOf(before, me) + (if pc.LoopTop? then 1 else 0)
    {
      workers := workers[me := Worker(pc, RoundsOf(before, me) + (if pc.LoopTop? then 1 else 0))];
      CommitIs(cfg, before, me, outcome, id, committed, Rows(), pc);
      KeepsInv(cfg, inv, before, Action.Commit(me, outcome, id), Now());
    }

    // ---- The loop ----

    /** Where an iteration may end: only a run that is finished, or about to be, ends the loop without a failure. */
    predicate Leaves(pc: Pc, status: RunStatus) {
      || pc.LoopTop? || pc.Crashed?
      || (pc.Finishing? && TerminalRun(pc.status))
      || (pc.Idle? && TerminalRun(status))
    }

    /** An id no evidence row has. */
    method NewId() returns (id: Id)
      ensures FreshId(Rows(), id)
    {
      id := "";
      var k := 0;
      while k < |evidence|
        invariant 0 <= k <= |evidence|
        invariant forall e | e in evidence[..k] :: |e.id| < |id|
      {
        if |evidence[k].id| >= |id| {
          id := evidence[k].id + "0";
        }
        k := k + 1;
      }
      assert evidence[..k] == evidence;
    }

    /** The model's part of `_decide`. */
    method AskModel(f: Frame, answer: Answer) returns (pc: Pc)
      requires Valid() && At() == Deciding(f) && f.budget.Some?
      modifies this
      ensures Valid() && At() == pc && RoundsOf(Now(), me) == old(RoundsOf(Now(), me))
      ensures pc == Ruling(f) || pc == Undecided(f, ModelBudgetExhausted) || (pc.Decided? && pc.f == f)
      ensures run.maxSteps == old(run.maxSteps)
    {
      Reserve(f);
      Others();
      pc := Settle(f, answer);
    }

    /** `_decide`: reserve, ask the model, settle, or let the rules decide. */
    method Decide(f: Frame, answer: Answer, proposal: Decision) returns (pc: Pc)
      requires Valid() && At() == (if f.budget.Some? then Deciding(f) else Ruling(f))
      modifies this
      ensures Valid() && At() == pc && RoundsOf(Now(), me) == old(RoundsOf(Now(), me))
      ensures (pc.Undecided? || pc.Decided?) && pc.f == f
      ensures run.maxSteps == old(run.maxSteps)
    {
      pc := Ruling(f);
      if f.budget.Some? {
        pc := AskModel(f, answer);
        Others();
      }
      if pc.Ruling? {
        pc := Rule(f, proposal);
      }
    }

    /** From a decision to the end of the iteration. */
    method Act(f: Frame, d: Decision, judged: Basis, outcome: Outcome) returns (pc: Pc)
      requires Valid() && At() == Decided(f, d, judged)
      modifies this
      ensures Valid() && At() == pc && Leaves(pc, run.status)
      ensures RoundsOf(Now(), me) == old(RoundsOf(Now(), me)) + (if pc.LoopTop? then 1 else 0)
      ensures run.maxSteps == old(run.maxSteps)
    {
      Record(f, d, judged);
      Others();
      pc := Check(f, d, judged);
      Others();
      if pc.Ending? {
        pc := End(f, pc.cancelled);
      } else if pc.Cleared? {
        pc := Perform(f, d, judged, outcome);
      }
    }

    /** A cleared decision, with its tool call if it asks for one. */
    method Perform(f: Frame, d: Decision, judged: Basis, outcome: Outcome) returns (pc: Pc)
      requires Valid() && At() == Cleared(f, d, judged)
      modifies this
      ensures Valid() && At() == pc && (pc.LoopTop? || (pc.Finishing? && TerminalRun(pc.status)) || pc.Crashed?)
      ensures RoundsOf(Now(), me) == old(RoundsOf(Now(), me)) + (if pc.LoopTop? then 1 else 0)
      ensures run.maxSteps == old(run.maxSteps)
    {
      pc := Dispatch(f, d, judged);
      if pc.ToolRunning? {
        Others();
        var id := NewId();
        pc := CommitTool(f, d, outcome, id);
      }
    }

    /** One iteration; tells whether there is another. */
    method Iterate(answer: Answer, proposal: Decision, outcome: Outcome) returns (again: bool)
      requires Valid() && At().LoopTop?
      modifies this
      ensures Valid() && At() == (if again then LoopTop else Idle)
      ensures again ==> RoundsOf(Now(), me) == old(RoundsOf(Now(), me)) + 1
      ensures !again ==> TerminalRun(run.status)
      ensures run.maxSteps == old(run.maxSteps)
    {
      var pc := Observe();
      Others();
      if pc.Ready? {
        pc := TakeStep(pc.f, answer, proposal, outcome);
        Others();
      }
      again := pc.LoopTop?;
      if pc.Finishing? {
        Finish(pc.status, pc.reason, pc.diagnosis, pc.step);
      } else if pc.Crashed? {
        FailRun();
      }
    }

    /** The step of an iteration. */
    method TakeStep(f: Frame, answer: Answer, proposal: Decision, outcome: Outcome) returns (pc: Pc)
      requires Valid() && At() == Ready(f)
      modifies this
      ensures Valid() && At() == pc && Leaves(pc, run.status)
      ensures RoundsOf(Now(), me) == old(RoundsOf(Now(), me)) + (if pc.LoopTop? then 1 else 0)
      ensures run.maxSteps == old(run.maxSteps)
    {
      var inserted := InsertStep(f);
      if !inserted {
        return Crashed;
      }
      Others();
      pc := Decide(f, answer, proposal);
      Others();
      if pc.Undecided? {
        pc := FailStep(f, pc.error);
      } else {
        pc := Act(f, pc.d, pc.basis, outcome);
      }
    }

    /**
     * `process`: claims the run and goes round at most max_steps times. A call that claimed the run
     * returns only once it is finished, whoever finished it.
     */
    method Process(alert: Content, oracle: Oracle) returns (claimed: bool)
      requires Valid() && At().Idle?
      modifies this
      ensures Valid() && At().Idle?
      ensures claimed ==> !TerminalRun(old(run.status)) && TerminalRun(run.status)
      ensures claimed <==> !TerminalRun(old(run.status)) && !LeaseHeldByOther(old(run), me, old(now))
                           && old(run.status) in {RunStatus.Queued, RunStatus.Running}
    {
      var id := NewId();
      claimed := Claim(id, alert);
      var again := claimed;
      ghost var limit := run.maxSteps;
      var round := 0;
      while again
        invariant Valid() && At() == (if again then LoopTop else Idle)
        invariant run.maxSteps == limit && round <= limit
        invariant again ==> RoundsOf(Now(), me) == round
        invariant claimed && !again ==> TerminalRun(run.status)
        decreases limit - round + (if again then 1 else 0)
      {
        Others();
        again := Iterate(oracle.answer(round), oracle.proposal(round), oracle.outcome(round));
        if again {
          round := round + 1;
        }
      }
    }
  }
}
