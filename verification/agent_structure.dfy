/**
 * Step ownership: sequences are contiguous, each belongs to the worker that inserted it, and only
 * that worker touches the counters until it advances the run.
 */
module AgentStructure {
  import opened Common
  import opened Domain
  import opened ContextMemory
  import opened ContextBuilder
  import opened AgentDecision
  import D = AgentDatabase
  import opened AgentDatabase
  import opened AgentRun

  /** The worker has inserted a step row and has not yet advanced the run or given the step up. */
  predicate Holds(pc: Pc) {
    pc.Deciding? || pc.InFlight? || pc.Ruling? || pc.Undecided? || pc.Decided? || pc.Recorded?
    || pc.Cleared? || pc.Ending? || pc.ToolRunning?
  }

  predicate SameLimits(a: RunRow, b: RunRow) {
    && a.maxSteps == b.maxSteps && a.maxToolCalls == b.maxToolCalls
    && a.maxModelCalls == b.maxModelCalls && a.maxTokens == b.maxTokens
  }

  predicate SameTokens(a: RunRow, b: RunRow) {
    a.modelCallsUsed == b.modelCallsUsed && a.inputUsed == b.inputUsed && a.outputUsed == b.outputUsed
  }

  predicate SameCounters(a: RunRow, b: RunRow) {
    SameTokens(a, b) && a.toolCallsUsed == b.toolCallsUsed && a.targetUid == b.targetUid
  }

  /** Rows 1..current_step exist, and at most one more. */
  ghost predicate Contiguous(db: Db) {
    && (forall n | 1 <= n <= db.run.currentStep :: n in db.steps)
    && (forall n | n in db.steps :: 1 <= n <= db.run.currentStep + 1)
    && db.run.currentStep <= db.run.maxSteps
    && (db.run.currentStep + 1 in db.steps ==> db.run.currentStep < db.run.maxSteps)
  }

  /** The frame was built from its snapshot, within the guards of the iteration head. */
  ghost predicate FrameOk(cfg: Config, f: Frame) {
    && f.snap.run.currentStep < f.snap.run.maxSteps
    && f.snap.run.toolCallsUsed < f.snap.run.maxToolCalls
    && cfg.build(RequestOf(cfg, f.snap, f.now, f.budget)) == Ok(f.context)
    && (f.budget.Some? ==>
          cfg.reasoner.WithModel? && Budget(cfg.reasoner.settings, f.snap.run) == Ok(f.budget.value))
  }

  /** What a frame may rely on: until somebody takes the next sequence, its snapshot is current. */
  ghost predicate ReadyOk(cfg: Config, db: Db, f: Frame) {
    && FrameOk(cfg, f)
    && SameLimits(f.snap.run, db.run)
    && f.snap.evidence <= db.evidence
    && f.snap.run.currentStep <= db.run.currentStep
    && (f.snap.run.currentStep == db.run.currentStep && db.run.currentStep + 1 !in db.steps ==>
          SameCounters(f.snap.run, db.run) && f.snap.steps == db.steps)
  }

  /** The accounting a holder has done so far. */
  ghost predicate Charged(cfg: Config, db: Db, calls: map<nat, ModelCall>, pc: Pc)
    requires Holds(pc)
  {
    var run, f := db.run, pc.f;
    && (pc.Deciding? ==> SameTokens(f.snap.run, run) && Sequence(f) !in calls && f.budget.Some?)
    && (pc.InFlight? ==>
          && f.budget.Some?
          && run.modelCallsUsed == f.snap.run.modelCallsUsed + 1
          && run.inputUsed == f.snap.run.inputUsed + ReservedInput(cfg, f)
          && run.outputUsed == f.snap.run.outputUsed + f.budget.value.outputTokens
          && Sequence(f) in calls
          && calls[Sequence(f)] == ModelCall(ReservedInput(cfg, f), f.budget.value.outputTokens, None, false))
  }

  /** A holder owns the one row past current_step, and its snapshot is the rest of the database. */
  ghost predicate HolderOk(cfg: Config, db: Db, calls: map<nat, ModelCall>, w: WorkerId, pc: Pc)
    requires Holds(pc)
  {
    var run, f := db.run, pc.f;
    && FrameOk(cfg, f)
    && SameLimits(f.snap.run, run)
    && f.snap.evidence <= db.evidence
    && f.snap.run.currentStep == run.currentStep
    && f.snap.run.targetUid == run.targetUid
    && Sequence(f) in db.steps
    && db.steps[Sequence(f)].owner == w
    && db.steps[Sequence(f)].conflicting == f.context.selection.conflicting
    && f.snap.steps == db.steps - {Sequence(f)}
    && run.toolCallsUsed == f.snap.run.toolCallsUsed + (if pc.ToolRunning? then 1 else 0)
    && (db.steps[Sequence(f)].invocation.Some? <==> pc.ToolRunning?)
    && Charged(cfg, db, calls, pc)
  }

  ghost predicate WorkerOk(cfg: Config, db: Db, calls: map<nat, ModelCall>, w: WorkerId, worker: Worker) {
    && worker.rounds <= db.run.currentStep
    && (worker.pc.Ready? ==> ReadyOk(cfg, db, worker.pc.f) && worker.rounds <= worker.pc.f.snap.run.currentStep)
    && (Holds(worker.pc) ==> HolderOk(cfg, db, calls, w, worker.pc))
  }

  ghost predicate Structure(cfg: Config, s: Sys) {
    && Contiguous(s.db)
    && (forall n | n in s.calls :: n in s.db.steps)
    && (forall w | w in s.workers :: WorkerOk(cfg, s.db, s.calls, w, s.workers[w]))
  }

  // ---- How a database change looks to the other workers ----

  ghost predicate Grows(db: Db, db': Db) {
    SameLimits(db.run, db'.run) && db.evidence <= db'.evidence && db.run.currentStep <= db'.run.currentStep
  }

  /** Nothing a snapshot depends on changed. */
  ghost predicate Quiet(db: Db, db': Db) {
    && Grows(db, db')
    && db'.steps == db.steps
    && db'.run.currentStep == db.run.currentStep
    && SameCounters(db.run, db'.run)
  }

  lemma QuietKeepsWorker(cfg: Config, db: Db, db': Db, calls: map<nat, ModelCall>, w: WorkerId, worker: Worker)
    requires WorkerOk(cfg, db, calls, w, worker) && Quiet(db, db')
    ensures WorkerOk(cfg, db', calls, w, worker)
  {
  }

  /** A worker without a row only relies on the next sequence being free. */
  lemma TakenSequenceKeepsWorker(
    cfg: Config, db: Db, db': Db, calls: map<nat, ModelCall>, calls': map<nat, ModelCall>, w: WorkerId, worker: Worker)
    requires WorkerOk(cfg, db, calls, w, worker) && !Holds(worker.pc) && Grows(db, db')
    requires db.run.currentStep < db'.run.currentStep || db'.run.currentStep + 1 in db'.steps
    ensures WorkerOk(cfg, db', calls', w, worker)
  {
  }

  /** A step of `w` that leaves every snapshot valid. */
  lemma QuietStep(cfg: Config, s: Sys, db': Db, w: WorkerId, worker: Worker)
    requires Structure(cfg, s) && Quiet(s.db, db')
    requires WorkerOk(cfg, db', s.calls, w, worker)
    ensures Structure(cfg, s.(db := db', workers := s.workers[w := worker]))
  {
    forall x | x in s.workers && x != w ensures WorkerOk(cfg, db', s.calls, x, s.workers[x]) {
      QuietKeepsWorker(cfg, s.db, db', s.calls, x, s.workers[x]);
    }
  }

  lemma QuietEnvironment(cfg: Config, s: Sys, db': Db)
    requires Structure(cfg, s) && Quiet(s.db, db')
    ensures Structure(cfg, s.(db := db'))
  {
    forall x | x in s.workers ensures WorkerOk(cfg, db', s.calls, x, s.workers[x]) {
      QuietKeepsWorker(cfg, s.db, db', s.calls, x, s.workers[x]);
    }
  }

  /** A step of `w` that takes the next sequence, works on it, or advances past it. */
  lemma OwnedStep(cfg: Config, s: Sys, s': Sys, w: WorkerId)
    requires Structure(cfg, s) && Contiguous(s'.db) && Grows(s.db, s'.db)
    requires forall n | n in s'.calls :: n in s'.db.steps
    requires w in s'.workers && s'.workers == s.workers[w := s'.workers[w]]
    requires WorkerOk(cfg, s'.db, s'.calls, w, s'.workers[w])
    requires s.db.run.currentStep < s'.db.run.currentStep || s'.db.run.currentStep + 1 in s'.db.steps
    requires s.db.run.currentStep + 1 in s.db.steps ==> s.db.steps[s.db.run.currentStep + 1].owner == w
    ensures Structure(cfg, s')
  {
    forall x | x in s.workers && x != w ensures WorkerOk(cfg, s'.db, s'.calls, x, s.workers[x]) {
      TakenSequenceKeepsWorker(cfg, s.db, s'.db, s.calls, s'.calls, x, s.workers[x]);
    }
  }

  // ---- Every step keeps the structure ----

  lemma ClaimKeeps(cfg: Config, s: Sys, w: WorkerId, id: Id, content: Content)
    requires Structure(cfg, s) && StepClaim(cfg, s, w, id, content).Some?
    ensures Structure(cfg, StepClaim(cfg, s, w, id, content).value)
  {
    var s' := StepClaim(cfg, s, w, id, content).value;
    QuietStep(cfg, s, s'.db, w, s'.workers[w]);
  }

  lemma ObserveKeeps(cfg: Config, s: Sys, w: WorkerId)
    requires Structure(cfg, s) && StepObserve(cfg, s, w).Some?
    ensures Structure(cfg, StepObserve(cfg, s, w).value)
  {
    var s' := StepObserve(cfg, s, w).value;
    var snap := Snapshot(s.db.run, s.db.steps, s.db.evidence);
    PreparedFrame(cfg, snap, s.db.now);
    QuietStep(cfg, s, s'.db, w, s'.workers[w]);
  }

  lemma PreparedWithBudget(cfg: Config, snap: Snapshot, now: int, budget: Option<ModelBudget>)
    ensures var pc := PrepareWith(cfg, snap, now, budget);
            || (pc.Ready? && pc.f.snap == snap && pc.f.now == now && pc.f.budget == budget
                && cfg.build(RequestOf(cfg, snap, now, budget)) == Ok(pc.f.context))
            || (pc.Finishing? && !pc.status.Completed?)
  {
  }

  lemma PreparedFrame(cfg: Config, snap: Snapshot, now: int)
    ensures var pc := Prepare(cfg, snap, now);
            && !Holds(pc)
            && (pc.Ready? ==> FrameOk(cfg, pc.f) && pc.f.snap == snap && pc.f.now == now)
            && (pc.Finishing? ==> !pc.status.Completed?)
  {
    PreparedWithBudget(cfg, snap, now, None);
    if cfg.reasoner.WithModel? && Budget(cfg.reasoner.settings, snap.run).Ok? {
      PreparedWithBudget(cfg, snap, now, Some(Budget(cfg.reasoner.settings, snap.run).value));
    }
  }

  /** The winner of the insert finds its snapshot unchanged: nobody else acted since it was taken. */
  lemma InsertedFrameIsCurrent(cfg: Config, s: Sys, w: WorkerId, f: Frame)
    requires Structure(cfg, s) && PcOf(s, w) == Ready(f) && Sequence(f) !in s.db.steps
    ensures f.snap.run.currentStep == s.db.run.currentStep
    ensures SameCounters(f.snap.run, s.db.run) && f.snap.steps == s.db.steps
    ensures Sequence(f) !in s.calls
  {
    assert WorkerOk(cfg, s.db, s.calls, w, s.workers[w]);
  }

  lemma InsertKeeps(cfg: Config, s: Sys, w: WorkerId)
    requires Structure(cfg, s) && StepInsert(cfg, s, w).Some?
    ensures Structure(cfg, StepInsert(cfg, s, w).value)
  {
    var s', f := StepInsert(cfg, s, w).value, PcOf(s, w).f;
    assert WorkerOk(cfg, s.db, s.calls, w, s.workers[w]);
    if Sequence(f) in s.db.steps {
      QuietStep(cfg, s, s.db, w, s'.workers[w]);
    } else {
      InsertedFrameIsCurrent(cfg, s, w, f);
      InsertedWorkerOk(cfg, s, s', w, f);
      OwnedStep(cfg, s, s', w);
    }
  }

  lemma InsertedWorkerOk(cfg: Config, s: Sys, s': Sys, w: WorkerId, f: Frame)
    requires Structure(cfg, s) && PcOf(s, w) == Ready(f) && Sequence(f) !in s.db.steps
    requires f.snap.run.currentStep == s.db.run.currentStep
    requires SameCounters(f.snap.run, s.db.run) && f.snap.steps == s.db.steps && Sequence(f) !in s.calls
    requires StepInsert(cfg, s, w) == Some(s')
    ensures WorkerOk(cfg, s'.db, s'.calls, w, s'.workers[w])
  {
    assert WorkerOk(cfg, s.db, s.calls, w, s.workers[w]);
    assert s'.db.steps - {Sequence(f)} == s.db.steps;
  }

  /** The conditions under which a holder stays one while its row or the counters change. */
  lemma HolderStep(cfg: Config, s: Sys, s': Sys, w: WorkerId)
    requires Structure(cfg, s) && w in s.workers && Holds(s.workers[w].pc)
    requires Grows(s.db, s'.db) && s'.db.run.currentStep == s.db.run.currentStep
    requires s'.db.steps.Keys == s.db.steps.Keys
    requires forall n | n in s'.calls :: n in s.calls || n == Sequence(s.workers[w].pc.f)
    requires w in s'.workers && s'.workers == s.workers[w := s'.workers[w]]
    requires WorkerOk(cfg, s'.db, s'.calls, w, s'.workers[w])
    ensures Structure(cfg, s')
  {
    assert WorkerOk(cfg, s.db, s.calls, w, s.workers[w]);
    OwnedStep(cfg, s, s', w);
  }

  /** The holder advances the run to its own sequence. */
  lemma AdvanceKeeps(cfg: Config, s: Sys, s': Sys, w: WorkerId)
    requires Structure(cfg, s) && w in s.workers && Holds(s.workers[w].pc)
    requires Grows(s.db, s'.db) && s'.calls == s.calls
    requires s'.db.run.currentStep == Sequence(s.workers[w].pc.f)
    requires s'.db.steps.Keys == s.db.steps.Keys
    requires w in s'.workers && s'.workers == s.workers[w := s'.workers[w]]
    requires !Holds(s'.workers[w].pc) && !s'.workers[w].pc.Ready?
    requires s'.workers[w].rounds <= s.workers[w].rounds + 1
    ensures Structure(cfg, s')
  {
    assert WorkerOk(cfg, s.db, s.calls, w, s.workers[w]);
    OwnedStep(cfg, s, s', w);
  }

  lemma ReserveKeeps(cfg: Config, s: Sys, w: WorkerId)
    requires Structure(cfg, s) && StepReserve(cfg, s, w).Some?
    ensures Structure(cfg, StepReserve(cfg, s, w).value)
  {
    assert WorkerOk(cfg, s.db, s.calls, w, s.workers[w]);
    HolderStep(cfg, s, StepReserve(cfg, s, w).value, w);
  }

  /** Everything a reservation or a settlement changes. */
  lemma AccountShape(cfg: Config, s: Sys, s': Sys, w: WorkerId)
    requires StepReserve(cfg, s, w) == Some(s') || exists answer :: StepSettle(cfg, s, w, answer) == Some(s')
    ensures s'.workers == s.workers[w := s'.workers[w]]
    ensures var f := PcOf(s, w).f;
            && (PcOf(s, w).Deciding? || PcOf(s, w).InFlight?)
            && s'.calls == s.calls[Sequence(f) := s'.calls[Sequence(f)]]
            && s'.db == s.db.(run := s'.db.run)
            && SameLimits(s.db.run, s'.db.run)
            && s'.db.run.toolCallsUsed == s.db.run.toolCallsUsed && s'.db.run.targetUid == s.db.run.targetUid
            && s'.db.run.currentStep == s.db.run.currentStep
            && Holds(s'.workers[w].pc) && s'.workers[w].pc.f == f && !s'.workers[w].pc.ToolRunning?
  {
  }

  /** Where a settlement leaves its worker. */
  lemma SettledPc(cfg: Config, s: Sys, s': Sys, w: WorkerId, answer: Answer)
    requires StepSettle(cfg, s, w, answer) == Some(s')
    ensures w in s'.workers && s'.workers[w].rounds == RoundsOf(s, w)
    ensures s'.workers[w].pc.Undecided? || s'.workers[w].pc.Decided? || s'.workers[w].pc.Ruling?
  {
  }

  lemma SettleKeeps(cfg: Config, s: Sys, w: WorkerId, answer: Answer)
    requires Structure(cfg, s) && StepSettle(cfg, s, w, answer).Some?
    ensures Structure(cfg, StepSettle(cfg, s, w, answer).value)
  {
    var s' := StepSettle(cfg, s, w, answer).value;
    AccountShape(cfg, s, s', w);
    SettledPc(cfg, s, s', w, answer);
    assert WorkerOk(cfg, s.db, s.calls, w, s.workers[w]);
    SettledHolder(cfg, s.db, s'.db, s.calls, s'.calls, w, s.workers[w].pc, s'.workers[w].pc);
    HolderStep(cfg, s, s', w);
  }

  /** Only the token counters changed under a holder that makes no further request. */
  lemma SettledHolder(
    cfg: Config, db: Db, db': Db, calls: map<nat, ModelCall>, calls': map<nat, ModelCall>, w: WorkerId, pc: Pc, pc': Pc)
    requires Holds(pc) && HolderOk(cfg, db, calls, w, pc) && !pc.ToolRunning?
    requires (pc'.Undecided? || pc'.Decided? || pc'.Ruling?) && pc'.f == pc.f
    requires db' == db.(run := db'.run) && SameLimits(db.run, db'.run)
    requires db'.run.toolCallsUsed == db.run.toolCallsUsed && db'.run.targetUid == db.run.targetUid
    requires db'.run.currentStep == db.run.currentStep
    ensures HolderOk(cfg, db', calls', w, pc')
  {
  }

  lemma RuleKeeps(cfg: Config, s: Sys, w: WorkerId, proposal: Decision)
    requires Structure(cfg, s) && StepRule(cfg, s, w, proposal).Some?
    ensures Structure(cfg, StepRule(cfg, s, w, proposal).value)
  {
    assert WorkerOk(cfg, s.db, s.calls, w, s.workers[w]);
    HolderStep(cfg, s, StepRule(cfg, s, w, proposal).value, w);
  }

  lemma FailStepKeeps(cfg: Config, s: Sys, w: WorkerId)
    requires Structure(cfg, s) && StepFail(cfg, s, w).Some?
    ensures Structure(cfg, StepFail(cfg, s, w).value)
  {
    AdvanceKeeps(cfg, s, StepFail(cfg, s, w).value, w);
  }

  lemma RecordKeeps(cfg: Config, s: Sys, w: WorkerId)
    requires Structure(cfg, s) && StepRecord(cfg, s, w).Some?
    ensures Structure(cfg, StepRecord(cfg, s, w).value)
  {
    var s', f := StepRecord(cfg, s, w).value, PcOf(s, w).f;
    assert WorkerOk(cfg, s.db, s.calls, w, s.workers[w]);
    assert s'.db.steps - {Sequence(f)} == s.db.steps - {Sequence(f)};
    HolderStep(cfg, s, s', w);
  }

  lemma CheckKeeps(cfg: Config, s: Sys, w: WorkerId)
    requires Structure(cfg, s) && StepCheck(cfg, s, w).Some?
    ensures Structure(cfg, StepCheck(cfg, s, w).value)
  {
    assert WorkerOk(cfg, s.db, s.calls, w, s.workers[w]);
    HolderStep(cfg, s, StepCheck(cfg, s, w).value, w);
  }

  lemma EndKeeps(cfg: Config, s: Sys, w: WorkerId)
    requires Structure(cfg, s) && StepEnd(cfg, s, w).Some?
    ensures Structure(cfg, StepEnd(cfg, s, w).value)
  {
    assert WorkerOk(cfg, s.db, s.calls, w, s.workers[w]);
    HolderStep(cfg, s, StepEnd(cfg, s, w).value, w);
  }

  lemma DispatchKeeps(cfg: Config, s: Sys, w: WorkerId)
    requires Structure(cfg, s) && StepDispatch(cfg, s, w).Some?
    ensures Structure(cfg, StepDispatch(cfg, s, w).value)
  {
    var s' := StepDispatch(cfg, s, w).value;
    DispatchShape(cfg, s, w);
    if s'.workers[w].pc.ToolRunning? {
      DispatchStartedOk(cfg, s, s', w);
      HolderStep(cfg, s, s', w);
    } else if s'.workers[w].pc.Crashed? {
      assert WorkerOk(cfg, s.db, s.calls, w, s.workers[w]);
      HolderStep(cfg, s, s', w);
    } else {
      AdvanceKeeps(cfg, s, s', w);
    }
  }

  /** A dispatch starts the call on its own row, changes nothing, or closes the row and advances. */
  ghost predicate DispatchShaped(cfg: Config, db: Db, f: Frame, d: Decision, db': Db, pc: Pc) {
    var q := Sequence(f);
    && q in db.steps && q in db'.steps && db'.steps == db.steps[q := db'.steps[q]]
    && db'.steps[q].owner == db.steps[q].owner && db'.steps[q].conflicting == db.steps[q].conflicting
    && db'.steps[q].kind == db.steps[q].kind && db'.steps[q].evidenceIds == db.steps[q].evidenceIds
    && db'.evidence == db.evidence && db'.now == db.now
    && db'.run == db.run.(currentStep := db'.run.currentStep, toolCallsUsed := db'.run.toolCallsUsed,
                          leaseExpires := db'.run.leaseExpires)
    && (DispatchStarts(cfg, db, f, d, db', pc) || (pc.Crashed? && db' == db) || DispatchEnds(db, f, d, db', pc))
  }

  ghost predicate DispatchStarts(cfg: Config, db: Db, f: Frame, d: Decision, db': Db, pc: Pc)
    requires Sequence(f) in db.steps
  {
    && pc == ToolRunning(f, d) && d.tool.Some? && cfg.evaluate(InputOf(f, d)).Allow?
    && db'.run.currentStep == db.run.currentStep
    && StartTool(db, Sequence(f), d.tool.value, d.arguments, cfg.sanitizeArguments(d.arguments)) == Ok(db')
  }

  ghost predicate DispatchEnds(db: Db, f: Frame, d: Decision, db': Db, pc: Pc)
    requires Sequence(f) in db.steps && Sequence(f) in db'.steps
  {
    var q := Sequence(f);
    && pc.Finishing? && db'.run.currentStep == q && db'.run.toolCallsUsed == db.run.toolCallsUsed
    && db'.steps[q].invocation == db.steps[q].invocation
    && (if pc.status.Completed?
        then d.kind.Complete? && pc.diagnosis == d.diagnosis && pc.step == q && db'.steps[q].status.Succeeded?
        else pc.diagnosis.None?)
  }

  lemma DispatchedShape(cfg: Config, db: Db, f: Frame, d: Decision)
    requires Sequence(f) in db.steps && Dispatched(cfg, db, f, d).Some?
    ensures DispatchShaped(cfg, db, f, d, Dispatched(cfg, db, f, d).value.0, Dispatched(cfg, db, f, d).value.1)
  {
  }

  lemma DispatchShape(cfg: Config, s: Sys, w: WorkerId)
    requires StepDispatch(cfg, s, w).Some?
    ensures w in s.workers && s.workers[w].pc.Cleared?
    ensures var s' := StepDispatch(cfg, s, w).value;
            && w in s'.workers && s' == Goto(s, s'.db, w, s'.workers[w].pc)
            && DispatchShaped(cfg, s.db, s.workers[w].pc.f, s.workers[w].pc.d, s'.db, s'.workers[w].pc)
  {
    DispatchedShape(cfg, s.db, s.workers[w].pc.f, s.workers[w].pc.d);
  }

  lemma DispatchStartedOk(cfg: Config, s: Sys, s': Sys, w: WorkerId)
    requires Structure(cfg, s) && w in s.workers && s.workers[w].pc.Cleared?
    requires var f, d := s.workers[w].pc.f, s.workers[w].pc.d;
             && w in s'.workers && s'.workers[w] == Worker(ToolRunning(f, d), s.workers[w].rounds)
             && Sequence(f) in s.db.steps && d.tool.Some? && s'.calls == s.calls
             && StartTool(s.db, Sequence(f), d.tool.value, d.arguments, cfg.sanitizeArguments(d.arguments)) == Ok(s'.db)
    ensures WorkerOk(cfg, s'.db, s'.calls, w, s'.workers[w])
  {
    var f := s.workers[w].pc.f;
    assert WorkerOk(cfg, s.db, s.calls, w, s.workers[w]);
    assert s'.db.steps - {Sequence(f)} == s.db.steps - {Sequence(f)};
  }

  lemma CommitKeeps(cfg: Config, s: Sys, w: WorkerId, outcome: Outcome, id: Id)
    requires Structure(cfg, s) && StepCommit(cfg, s, w, outcome, id).Some?
    ensures Structure(cfg, StepCommit(cfg, s, w, outcome, id).value)
  {
    var s' := StepCommit(cfg, s, w, outcome, id).value;
    assert WorkerOk(cfg, s.db, s.calls, w, s.workers[w]);
    if s'.workers[w].pc.Crashed? {
      HolderStep(cfg, s, s', w);
    } else {
      AdvanceKeeps(cfg, s, s', w);
    }
  }

  lemma FinishKeeps(cfg: Config, s: Sys, w: WorkerId)
    requires Structure(cfg, s) && StepFinish(cfg, s, w).Some?
    ensures Structure(cfg, StepFinish(cfg, s, w).value)
  {
    var s' := StepFinish(cfg, s, w).value;
    assert WorkerOk(cfg, s.db, s.calls, w, s.workers[w]);
    QuietStep(cfg, s, s'.db, w, s'.workers[w]);
  }

  /** Giving up, crashing and dying leave the row behind but break no promise. */
  lemma LeaveKeeps(cfg: Config, s: Sys, db': Db, w: WorkerId, pc: Pc)
    requires Structure(cfg, s) && Quiet(s.db, db') && (pc.Idle? || pc.Crashed?)
    ensures Structure(cfg, Goto(s, db', w, pc))
  {
    assert w in s.workers ==> WorkerOk(cfg, s.db, s.calls, w, s.workers[w]);
    QuietStep(cfg, s, db', w, Worker(pc, RoundsOf(s, w)));
  }

  lemma StepKeepsStructure(cfg: Config, s: Sys, a: Action)
    requires Structure(cfg, s) && Step(cfg, s, a).Some?
    ensures Structure(cfg, Step(cfg, s, a).value)
  {
    match a
    case Claim(w, id, content) => ClaimKeeps(cfg, s, w, id, content);
    case Observe(w) => ObserveKeeps(cfg, s, w);
    case Insert(w) => InsertKeeps(cfg, s, w);
    case Reserve(w) => ReserveKeeps(cfg, s, w);
    case Settle(w, answer) => SettleKeeps(cfg, s, w, answer);
    case Rule(w, proposal) => RuleKeeps(cfg, s, w, proposal);
    case FailStep(w) => FailStepKeeps(cfg, s, w);
    case Record(w) => RecordKeeps(cfg, s, w);
    case Check(w) => CheckKeeps(cfg, s, w);
    case End(w) => EndKeeps(cfg, s, w);
    case Dispatch(w) => DispatchKeeps(cfg, s, w);
    case Commit(w, outcome, id) => CommitKeeps(cfg, s, w, outcome, id);
    case Finish(w) => FinishKeeps(cfg, s, w);
    case Raise(w) => LeaveKeeps(cfg, s, s.db, w, Crashed);
    case FailRun(w) => LeaveKeeps(cfg, s, D.FailRun(s.db), w, Idle);
    case Die(w) => LeaveKeeps(cfg, s, s.db, w, Idle);
    case RequestCancel => QuietEnvironment(cfg, s, D.RequestCancel(s.db));
    case Recover(cutoff) => QuietEnvironment(cfg, s, D.Recover(s.db, cutoff));
    case Tick(now) => QuietEnvironment(cfg, s, s.db.(now := now));
  }

  // ---- Steps that neither account for a model call nor start or commit a tool ----

  /** A worker whose step may still act on its decision. */
  predicate MayAct(pc: Pc) { Holds(pc) && !pc.Undecided? && !pc.Ending? }

  predicate PlainAction(a: Action) { !(a.Insert? || a.Reserve? || a.Settle? || a.Dispatch? || a.Commit?) }

  /** Only statuses, leases, evidence and decision columns change; workers keep or drop their step. */
  ghost predicate Plain(s: Sys, s': Sys) {
    && s'.calls == s.calls
    && Grows(s.db, s'.db)
    && SameCounters(s.db.run, s'.db.run)
    && s'.db.run.currentStep <= s.db.run.currentStep + 1
    && s'.db.steps.Keys == s.db.steps.Keys
    && (forall n | n in s.db.steps ::
          s'.db.steps[n].invocation == s.db.steps[n].invocation && s'.db.steps[n].owner == s.db.steps[n].owner)
    && (forall n | n in s.db.steps && n <= s.db.run.currentStep :: s'.db.steps[n] == s.db.steps[n])
    && (forall x | x in s'.workers :: PlainPc(PcOf(s, x), s'.workers[x].pc))
  }

  predicate PlainPc(pc: Pc, pc': Pc) {
    && (pc'.InFlight? || pc'.ToolRunning? ==> pc' == pc)
    && (MayAct(pc') ==> MayAct(pc) && pc'.f == pc.f)
  }

  lemma PlainClaim(cfg: Config, s: Sys, w: WorkerId, id: Id, content: Content)
    requires StepClaim(cfg, s, w, id, content).Some?
    ensures Plain(s, StepClaim(cfg, s, w, id, content).value)
  {
  }

  lemma PlainObserve(cfg: Config, s: Sys, w: WorkerId)
    requires StepObserve(cfg, s, w).Some?
    ensures Plain(s, StepObserve(cfg, s, w).value)
  {
    PreparedFrame(cfg, Snapshot(s.db.run, s.db.steps, s.db.evidence), s.db.now);
  }

  lemma PlainFailStep(cfg: Config, s: Sys, w: WorkerId)
    requires Structure(cfg, s) && StepFail(cfg, s, w).Some?
    ensures Plain(s, StepFail(cfg, s, w).value)
  {
    assert WorkerOk(cfg, s.db, s.calls, w, s.workers[w]);
  }

  lemma PlainRecord(cfg: Config, s: Sys, w: WorkerId)
    requires Structure(cfg, s) && StepRecord(cfg, s, w).Some?
    ensures Plain(s, StepRecord(cfg, s, w).value)
  {
    assert WorkerOk(cfg, s.db, s.calls, w, s.workers[w]);
  }

  lemma PlainEnd(cfg: Config, s: Sys, w: WorkerId)
    requires Structure(cfg, s) && StepEnd(cfg, s, w).Some?
    ensures Plain(s, StepEnd(cfg, s, w).value)
  {
    assert WorkerOk(cfg, s.db, s.calls, w, s.workers[w]);
  }

  lemma PlainFinish(cfg: Config, s: Sys, w: WorkerId)
    requires StepFinish(cfg, s, w).Some?
    ensures Plain(s, StepFinish(cfg, s, w).value)
  {
  }

  lemma PlainRule(cfg: Config, s: Sys, w: WorkerId, proposal: Decision)
    requires StepRule(cfg, s, w, proposal).Some?
    ensures Plain(s, StepRule(cfg, s, w, proposal).value)
  {
  }

  lemma PlainCheck(cfg: Config, s: Sys, w: WorkerId)
    requires StepCheck(cfg, s, w).Some?
    ensures Plain(s, StepCheck(cfg, s, w).value)
  {
  }

  lemma PlainLeave(s: Sys, db': Db, w: WorkerId, pc: Pc)
    requires Quiet(s.db, db') && (pc.Idle? || pc.Crashed?)
    ensures Plain(s, Goto(s, db', w, pc))
  {
  }

  lemma PlainEnvironment(s: Sys, db': Db)
    requires Quiet(s.db, db')
    ensures Plain(s, s.(db := db'))
  {
  }

  lemma PlainStep(cfg: Config, s: Sys, a: Action)
    requires Structure(cfg, s) && PlainAction(a) && Step(cfg, s, a).Some?
    ensures Plain(s, Step(cfg, s, a).value)
  {
    match a
    case Claim(w, id, content) => PlainClaim(cfg, s, w, id, content);
    case Observe(w) => PlainObserve(cfg, s, w);
    case FailStep(w) => PlainFailStep(cfg, s, w);
    case Record(w) => PlainRecord(cfg, s, w);
    case End(w) => PlainEnd(cfg, s, w);
    case Finish(w) => PlainFinish(cfg, s, w);
    case Rule(w, proposal) => PlainRule(cfg, s, w, proposal);
    case Check(w) => PlainCheck(cfg, s, w);
    case Raise(w) => PlainLeave(s, s.db, w, Crashed);
    case FailRun(w) => PlainLeave(s, D.FailRun(s.db), w, Idle);
    case Die(w) => PlainLeave(s, s.db, w, Idle);
    case RequestCancel => PlainEnvironment(s, D.RequestCancel(s.db));
    case Recover(cutoff) => PlainEnvironment(s, D.Recover(s.db, cutoff));
    case Tick(now) => PlainEnvironment(s, s.db.(now := now));
  }

  // ---- The shapes of the other steps ----

  /** An insert adds one empty row, or finds the sequence taken and crashes. */
  lemma InsertShape(cfg: Config, s: Sys, w: WorkerId)
    requires StepInsert(cfg, s, w).Some?
    ensures var s', pc := StepInsert(cfg, s, w).value, PcOf(s, w);
            && pc.Ready?
            && s'.workers == s.workers[w := s'.workers[w]]
            && s' == s.(db := s.db.(steps := s'.db.steps), workers := s'.workers)
            && (Sequence(pc.f) in s.db.steps ==> s'.db == s.db && s'.workers[w].pc.Crashed?)
            && (Sequence(pc.f) !in s.db.steps ==>
                  && s'.db.steps == s.db.steps[Sequence(pc.f) := s'.db.steps[Sequence(pc.f)]]
                  && s'.db.steps[Sequence(pc.f)].invocation.None? && s'.db.steps[Sequence(pc.f)].kind.None?
                  && s'.workers[w].pc == if pc.f.budget.Some? then Deciding(pc.f) else Ruling(pc.f))
  {
  }

  /** A commit closes the worker's own invocation and advances, or changes nothing and crashes. */
  lemma CommitShape(cfg: Config, s: Sys, w: WorkerId, outcome: Outcome, id: Id)
    requires StepCommit(cfg, s, w, outcome, id).Some?
    ensures var s', pc := StepCommit(cfg, s, w, outcome, id).value, PcOf(s, w);
            && pc.ToolRunning? && Sequence(pc.f) in s.db.steps && s.db.steps[Sequence(pc.f)].invocation.Some?
            && s'.workers == s.workers[w := s'.workers[w]]
            && s' == s.(db := s'.db, workers := s'.workers)
            && (s'.workers[w].pc.Crashed? || s'.workers[w].pc.LoopTop? || s'.workers[w].pc.Finishing?)
            && (s'.workers[w].pc.Crashed? ==> s'.db == s.db)
            && (!s'.workers[w].pc.Crashed? ==>
                  var row, row' := s.db.steps[Sequence(pc.f)], s'.db.steps[Sequence(pc.f)];
                  && s'.db.run == s.db.run.(currentStep := Sequence(pc.f), targetUid := s'.db.run.targetUid)
                  && s'.db.run.targetUid == BindUid(s.db.run.targetUid, row.invocation.value.tool, outcome)
                  && s'.db.steps == s.db.steps[Sequence(pc.f) := row']
                  && row'.owner == row.owner && row'.kind == row.kind && row'.evidenceIds == row.evidenceIds
                  && row'.invocation.Some?
                  && row'.invocation.value.tool == row.invocation.value.tool
                  && row'.invocation.value.sent == row.invocation.value.sent
                  && row'.invocation.value.arguments == row.invocation.value.arguments
                  && s.db.evidence <= s'.db.evidence)
  {
  }
}
