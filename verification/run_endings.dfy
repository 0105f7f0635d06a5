/**
 * How a run may end: cancelled only on request, completed only with its goal, and a step given up as
 * late only after the deadline.
 */
module RunEndings {
  import opened Common
  import opened Domain
  import opened ContextMemory
  import opened AgentDecision
  import D = AgentDatabase
  import opened AgentDatabase
  import opened AgentRun
  import opened AgentEffects

  /** The reason is true of the run. */
  ghost predicate Justified(db: Db, status: RunStatus, reason: string) {
    && (status == RunStatus.Cancelled ==> db.run.cancelRequested && reason == "USER_CANCELLED")
    && (status == Completed ==> reason == "GOAL_COMPLETED")
  }

  ghost predicate EndOk(db: Db, pc: Pc) {
    && (pc.Finishing? ==> Over(pc.status) && Justified(db, pc.status, pc.reason))
    && (pc.Ending? ==> if pc.cancelled then db.run.cancelRequested else Late(db.run, db.now))
  }

  ghost predicate Endings(s: Sys) {
    Justified(s.db, s.db.run.status, s.db.run.stopReason) && forall w | w in s.workers :: EndOk(s.db, s.workers[w].pc)
  }

  /** A request to cancel and a deadline are never withdrawn, and time goes forward. */
  ghost predicate Onward(db: Db, db': Db) {
    && (db.run.cancelRequested ==> db'.run.cancelRequested)
    && (db.run.deadline.Some? ==> db'.run.deadline == db.run.deadline) && db.now <= db'.now
  }

  /** The run keeps how it ended, or ended as `Justified`. */
  ghost predicate EndsWell(db: Db, db': Db) {
    || (db'.run.status == db.run.status && db'.run.stopReason == db.run.stopReason)
    || Justified(db', db'.run.status, db'.run.stopReason)
  }

  lemma EndingsFrame(s: Sys, s': Sys)
    requires Endings(s) && Onward(s.db, s'.db) && EndsWell(s.db, s'.db)
    requires forall w | w in s'.workers :: s'.workers[w].pc == PcOf(s, w) || EndOk(s'.db, s'.workers[w].pc)
    ensures Endings(s')
  {
    forall w | w in s'.workers ensures EndOk(s'.db, s'.workers[w].pc) {
      if w in s.workers && s'.workers[w].pc == s.workers[w].pc {
        assert EndOk(s.db, s.workers[w].pc);
      }
    }
  }

  /** What one step of worker `w` leaves. */
  ghost predicate Proceeds(s: Sys, s': Sys, w: WorkerId) {
    && Onward(s.db, s'.db) && EndsWell(s.db, s'.db)
    && w in s'.workers && s'.workers == s.workers[w := s'.workers[w]] && EndOk(s'.db, s'.workers[w].pc)
  }

  lemma HeadProceeds(cfg: Config, s: Sys, w: WorkerId)
    requires StepObserve(cfg, s, w).Some?
    ensures Proceeds(s, StepObserve(cfg, s, w).value, w)
  {
    HeadReasonIff(cfg, Snapshot(s.db.run, s.db.steps, s.db.evidence), s.db.now);
  }

  lemma DispatchProceeds(cfg: Config, s: Sys, w: WorkerId)
    requires StepDispatch(cfg, s, w).Some?
    ensures Proceeds(s, StepDispatch(cfg, s, w).value, w)
  {
    var f, d := PcOf(s, w).f, PcOf(s, w).d;
    if !d.kind.CallTool? {
      ConclusionEffect(cfg, s.db, f, d);
    }
  }

  lemma FinishProceeds(cfg: Config, s: Sys, w: WorkerId)
    requires Endings(s) && StepFinish(cfg, s, w).Some?
    ensures Proceeds(s, StepFinish(cfg, s, w).value, w)
  {
    assert EndOk(s.db, s.workers[w].pc);
  }

  lemma EndProceeds(cfg: Config, s: Sys, w: WorkerId)
    requires Endings(s) && StepEnd(cfg, s, w).Some?
    ensures Proceeds(s, StepEnd(cfg, s, w).value, w)
  {
    assert EndOk(s.db, s.workers[w].pc);
  }

  lemma StepRowProceeds(cfg: Config, s: Sys, w: WorkerId)
    ensures StepInsert(cfg, s, w).Some? ==> Proceeds(s, StepInsert(cfg, s, w).value, w)
    ensures StepRecord(cfg, s, w).Some? ==> Proceeds(s, StepRecord(cfg, s, w).value, w)
    ensures StepCheck(cfg, s, w).Some? ==> Proceeds(s, StepCheck(cfg, s, w).value, w)
    ensures StepFail(cfg, s, w).Some? ==> Proceeds(s, StepFail(cfg, s, w).value, w)
  {
  }

  lemma ModelProceeds(cfg: Config, s: Sys, w: WorkerId, answer: Answer, proposal: Decision)
    ensures StepReserve(cfg, s, w).Some? ==> Proceeds(s, StepReserve(cfg, s, w).value, w)
    ensures StepSettle(cfg, s, w, answer).Some? ==> Proceeds(s, StepSettle(cfg, s, w, answer).value, w)
    ensures StepRule(cfg, s, w, proposal).Some? ==> Proceeds(s, StepRule(cfg, s, w, proposal).value, w)
  {
  }

  lemma ClaimProceeds(cfg: Config, s: Sys, w: WorkerId, id: Id, content: Content)
    requires StepClaim(cfg, s, w, id, content).Some?
    ensures Proceeds(s, StepClaim(cfg, s, w, id, content).value, w)
  {
  }

  lemma CommitProceeds(cfg: Config, s: Sys, w: WorkerId, outcome: Outcome, id: Id)
    requires StepCommit(cfg, s, w, outcome, id).Some?
    ensures Proceeds(s, StepCommit(cfg, s, w, outcome, id).value, w)
  {
  }

  lemma LeaveProceeds(cfg: Config, s: Sys, w: WorkerId)
    ensures Proceeds(s, Goto(s, s.db, w, Crashed), w) && Proceeds(s, Goto(s, s.db, w, Idle), w)
    ensures Proceeds(s, Goto(s, D.FailRun(s.db), w, Idle), w)
  {
  }

  lemma WorkerKeepsEndings(s: Sys, s': Sys, w: WorkerId)
    requires Endings(s) && Proceeds(s, s', w)
    ensures Endings(s')
  {
    EndingsFrame(s, s');
  }

  lemma EnvironmentKeepsEndings(cfg: Config, s: Sys, a: Action)
    requires Endings(s) && Step(cfg, s, a).Some? && (a.RequestCancel? || a.Recover? || a.Tick?)
    ensures Endings(Step(cfg, s, a).value)
  {
    EndingsFrame(s, Step(cfg, s, a).value);
  }

  predicate InStep(a: Action) {
    a.Insert? || a.Record? || a.Check? || a.FailStep? || a.End? || a.Dispatch? || a.Commit? || a.Finish?
  }

  lemma InStepKeepsEndings(cfg: Config, s: Sys, a: Action)
    requires Endings(s) && Step(cfg, s, a).Some? && InStep(a)
    ensures Endings(Step(cfg, s, a).value)
  {
    var s' := Step(cfg, s, a).value;
    match a
    case Insert(w) => StepRowProceeds(cfg, s, w); WorkerKeepsEndings(s, s', w);
    case Record(w) => StepRowProceeds(cfg, s, w); WorkerKeepsEndings(s, s', w);
    case Check(w) => StepRowProceeds(cfg, s, w); WorkerKeepsEndings(s, s', w);
    case FailStep(w) => StepRowProceeds(cfg, s, w); WorkerKeepsEndings(s, s', w);
    case End(w) => EndProceeds(cfg, s, w); WorkerKeepsEndings(s, s', w);
    case Dispatch(w) => DispatchProceeds(cfg, s, w); WorkerKeepsEndings(s, s', w);
    case Commit(w, outcome, id) => CommitProceeds(cfg, s, w, outcome, id); WorkerKeepsEndings(s, s', w);
    case Finish(w) => FinishProceeds(cfg, s, w); WorkerKeepsEndings(s, s', w);
  }

  lemma StepKeepsEndings(cfg: Config, s: Sys, a: Action)
    requires Endings(s) && Step(cfg, s, a).Some?
    ensures Endings(Step(cfg, s, a).value)
  {
    var s' := Step(cfg, s, a).value;
    match a
    case Claim(w, id, content) => ClaimProceeds(cfg, s, w, id, content); WorkerKeepsEndings(s, s', w);
    case Observe(w) => HeadProceeds(cfg, s, w); WorkerKeepsEndings(s, s', w);
    case Reserve(w) => ModelProceeds(cfg, s, w, Raised(None), CONFLICT_DECISION); WorkerKeepsEndings(s, s', w);
    case Settle(w, answer) => ModelProceeds(cfg, s, w, answer, CONFLICT_DECISION); WorkerKeepsEndings(s, s', w);
    case Rule(w, proposal) => ModelProceeds(cfg, s, w, Raised(None), proposal); WorkerKeepsEndings(s, s', w);
    case Raise(w) => LeaveProceeds(cfg, s, w); WorkerKeepsEndings(s, s', w);
    case FailRun(w) => LeaveProceeds(cfg, s, w); WorkerKeepsEndings(s, s', w);
    case Die(w) => LeaveProceeds(cfg, s, w); WorkerKeepsEndings(s, s', w);
    case _ => if InStep(a) { InStepKeepsEndings(cfg, s, a); } else { EnvironmentKeepsEndings(cfg, s, a); }
  }

  lemma {:induction false} RunKeepsEndings(cfg: Config, s: Sys, trace: seq<Action>)
    requires Endings(s) && Run(cfg, s, trace).Some?
    ensures Endings(Run(cfg, s, trace).value)
    decreases |trace|
  {
    if trace != [] {
      StepKeepsEndings(cfg, s, trace[0]);
      RunKeepsEndings(cfg, Step(cfg, s, trace[0]).value, trace[1..]);
    }
  }

  /** A run is CANCELLED only after a request to cancel it, and says so; a COMPLETED one has reached its goal. */
  lemma EndsAreJustified(cfg: Config, s: Sys)
    requires Reachable(cfg, s)
    ensures s.db.run.status.Cancelled? ==> s.db.run.cancelRequested && s.db.run.stopReason == "USER_CANCELLED"
    ensures s.db.run.status.Completed? ==> s.db.run.stopReason == "GOAL_COMPLETED"
    ensures forall w | PcOf(s, w).Ending? ::
              if PcOf(s, w).cancelled then s.db.run.cancelRequested
              else s.db.run.deadline.Some? && s.db.run.deadline.value <= s.db.now
  {
    var init, trace :| Init(cfg, init) && Run(cfg, init, trace) == Some(s);
    RunKeepsEndings(cfg, init, trace);
    forall w | PcOf(s, w).Ending? ensures EndOk(s.db, PcOf(s, w)) {
      assert EndOk(s.db, s.workers[w].pc);
    }
  }
}
