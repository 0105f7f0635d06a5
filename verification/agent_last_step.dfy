/**
 * Whether the last step row of a COMPLETED run is the one that completed it. It is as long as no
 * worker is granted the run while another one is still at work, and in any case exactly when no step
 * row is inserted after the completing decision was dispatched; a second worker that takes over an
 * expired lease can insert one before the first one finishes.
 */
module AgentLastStep {
  import opened Common
  import opened Domain
  import opened ContextMemory
  import opened ContextBuilder
  import opened AgentDecision
  import Redaction
  import D = AgentDatabase
  import opened AgentDatabase
  import opened AgentRun
  import opened AgentStructure
  import opened AgentCompletion
  import opened AgentGuarantees

  ghost predicate LastRow(s: Sys, n: nat) { n in s.db.steps && forall m | m in s.db.steps :: m <= n }

  // ---- Rows are only added by inserts ----

  /** The unique constraint on (run, sequence) admits the row this action inserts. */
  predicate Inserts(s: Sys, a: Action) {
    a.Insert? && PcOf(s, a.w).Ready? && Sequence(PcOf(s, a.w).f) !in s.db.steps
  }

  /** Some insert of the trace adds a row. */
  predicate SomeInsert(cfg: Config, s: Sys, trace: seq<Action>)
    decreases |trace|
  {
    && trace != [] && Step(cfg, s, trace[0]).Some?
    && (Inserts(s, trace[0]) || SomeInsert(cfg, Step(cfg, s, trace[0]).value, trace[1..]))
  }

  lemma InsertAddsARow(cfg: Config, s: Sys, w: WorkerId)
    requires StepInsert(cfg, s, w).Some?
    ensures PcOf(s, w).Ready?
    ensures var keys, n := StepInsert(cfg, s, w).value.db.steps.Keys, Sequence(PcOf(s, w).f);
            keys == if n in s.db.steps then s.db.steps.Keys else s.db.steps.Keys + {n}
  {
    InsertShape(cfg, s, w);
  }

  lemma PlainAddsNoRow(cfg: Config, s: Sys, a: Action)
    requires Structure(cfg, s) && PlainAction(a) && Step(cfg, s, a).Some?
    ensures Step(cfg, s, a).value.db.steps.Keys == s.db.steps.Keys
  {
    PlainStep(cfg, s, a);
  }

  lemma CommitAddsNoRow(cfg: Config, s: Sys, w: WorkerId, outcome: Outcome, id: Id)
    requires StepCommit(cfg, s, w, outcome, id).Some?
    ensures StepCommit(cfg, s, w, outcome, id).value.db.steps.Keys == s.db.steps.Keys
  {
    CommitShape(cfg, s, w, outcome, id);
  }

  lemma DispatchAddsNoRow(cfg: Config, s: Sys, w: WorkerId)
    requires StepDispatch(cfg, s, w).Some?
    ensures StepDispatch(cfg, s, w).value.db.steps.Keys == s.db.steps.Keys
  {
    DispatchShape(cfg, s, w);
  }

  lemma OtherActionsAddNoRow(cfg: Config, s: Sys, a: Action)
    requires Structure(cfg, s) && Step(cfg, s, a).Some? && !a.Insert?
    ensures Step(cfg, s, a).value.db.steps.Keys == s.db.steps.Keys
  {
    if PlainAction(a) {
      PlainAddsNoRow(cfg, s, a);
    } else {
      match a
      case Reserve(w) =>
      case Settle(w, answer) =>
      case Dispatch(w) => DispatchAddsNoRow(cfg, s, w);
      case Commit(w, outcome, id) => CommitAddsNoRow(cfg, s, w, outcome, id);
    }
  }

  lemma OnlyInsertsAddRows(cfg: Config, s: Sys, a: Action)
    requires Structure(cfg, s) && Step(cfg, s, a).Some?
    ensures var keys := Step(cfg, s, a).value.db.steps.Keys;
            keys == if Inserts(s, a) then s.db.steps.Keys + {Sequence(PcOf(s, a.w).f)} else s.db.steps.Keys
  {
    if a.Insert? {
      InsertAddsARow(cfg, s, a.w);
    } else {
      OtherActionsAddNoRow(cfg, s, a);
    }
  }

  /** A row that is added follows every row there is. */
  lemma InsertedRowIsLast(cfg: Config, s: Sys, a: Action)
    requires Structure(cfg, s) && Inserts(s, a)
    ensures forall m | m in s.db.steps :: m < Sequence(PcOf(s, a.w).f)
  {
    InsertedFrameIsCurrent(cfg, s, a.w, PcOf(s, a.w).f);
  }

  lemma {:induction false} RowStaysLastIff(cfg: Config, s: Sys, trace: seq<Action>, n: nat)
    requires Wired(cfg) && Invariant(cfg, s) && Run(cfg, s, trace).Some?
    requires n in s.db.steps
    ensures LastRow(Run(cfg, s, trace).value, n) <==> LastRow(s, n) && !SomeInsert(cfg, s, trace)
    decreases |trace|
  {
    if trace != [] {
      var next := Step(cfg, s, trace[0]).value;
      OnlyInsertsAddRows(cfg, s, trace[0]);
      if Inserts(s, trace[0]) {
        InsertedRowIsLast(cfg, s, trace[0]);
      }
      StepKeepsInvariant(cfg, s, trace[0]);
      RowStaysLastIff(cfg, next, trace[1..], n);
    }
  }

  predicate Concludes(pc: Pc) { pc.Finishing? && pc.status.Completed? }

  lemma DispatchedRowIsLast(cfg: Config, s: Sys, w: WorkerId)
    requires Structure(cfg, s) && StepDispatch(cfg, s, w).Some?
    ensures var dispatched := StepDispatch(cfg, s, w).value;
            Concludes(PcOf(dispatched, w)) ==>
              LastRow(dispatched, PcOf(dispatched, w).step) && PcOf(dispatched, w).step == dispatched.db.run.currentStep
  {
    ActsOnTheNextRow(cfg, s, w);
    DispatchShape(cfg, s, w);
  }

  lemma CompletingDispatch(cfg: Config, s: Sys, a: Action, s': Sys)
    requires Wired(cfg) && Invariant(cfg, s) && a.Dispatch? && Step(cfg, s, a) == Some(s') && Concludes(PcOf(s', a.w))
    ensures LastRow(s', PcOf(s', a.w).step)
  {
    DispatchedRowIsLast(cfg, s, a.w);
  }

  lemma InvariantNext(cfg: Config, s: Sys, a: Action, s': Sys)
    requires Wired(cfg) && Invariant(cfg, s) && Step(cfg, s, a) == Some(s')
    ensures Invariant(cfg, s')
  {
    StepKeepsInvariant(cfg, s, a);
  }

  /**
   * The dispatch of a completing decision finds its row the last one, and from then on it stays the
   * last exactly when no insert finds its sequence free.
   */
  lemma CompletingRowStaysLastIff(cfg: Config, s: Sys, a: Action, dispatched: Sys, trace: seq<Action>)
    requires Wired(cfg) && Reachable(cfg, s) && a.Dispatch? && Step(cfg, s, a) == Some(dispatched)
    requires Concludes(PcOf(dispatched, a.w)) && Run(cfg, dispatched, trace).Some?
    ensures var n := PcOf(dispatched, a.w).step;
            && LastRow(dispatched, n)
            && (LastRow(Run(cfg, dispatched, trace).value, n) <==> !SomeInsert(cfg, dispatched, trace))
  {
    ReachableInvariant(cfg, s);
    CompletingDispatch(cfg, s, a, dispatched);
    InvariantNext(cfg, s, a, dispatched);
    RowStaysLastIff(cfg, dispatched, trace, PcOf(dispatched, a.w).step);
  }

  // ---- At most one worker at work ----

  function ActorOf(a: Action): Option<WorkerId> {
    match a
    case RequestCancel => None
    case Recover(_) => None
    case Tick(_) => None
    case _ => Some(a.w)
  }

  /** The worker will touch the run again, other than to report its failure. */
  predicate Busy(pc: Pc) { !pc.Idle? && !pc.Crashed? }

  /** The lease test lets a worker have the run while another one is still at work. */
  ghost predicate TakesOver(cfg: Config, s: Sys, a: Action) {
    && a.Claim? && (exists x | x in s.workers :: x != a.w && Busy(s.workers[x].pc))
    && Step(cfg, s, a).Some? && Busy(PcOf(Step(cfg, s, a).value, a.w))
  }

  ghost predicate NeverTakenOver(cfg: Config, s: Sys, trace: seq<Action>)
    decreases |trace|
  {
    trace == [] ||
    (!TakesOver(cfg, s, trace[0])
     && (Step(cfg, s, trace[0]).Some? ==> NeverTakenOver(cfg, Step(cfg, s, trace[0]).value, trace[1..])))
  }

  /** At most one worker is at work. */
  ghost predicate OneAtWork(s: Sys) {
    forall x, y | x in s.workers && y in s.workers && Busy(s.workers[x].pc) && Busy(s.workers[y].pc) :: x == y
  }

  /** With one worker at work at most, a step about to complete the run, or that did, stays the last. */
  ghost predicate Alone(s: Sys) {
    && OneAtWork(s)
    && (forall x | x in s.workers && Concludes(s.workers[x].pc) ::
          s.workers[x].pc.step == s.db.run.currentStep && LastRow(s, s.db.run.currentStep))
    && (s.db.run.status.Completed? ==>
          && (forall x | x in s.workers :: !Busy(s.workers[x].pc))
          && s.completedBy == Some(s.db.run.currentStep) && LastRow(s, s.db.run.currentStep))
  }

  lemma OnlyTheActorMoves(cfg: Config, s: Sys, a: Action)
    requires Step(cfg, s, a).Some?
    ensures forall x: WorkerId | ActorOf(a) != Some(x) :: PcOf(Step(cfg, s, a).value, x) == PcOf(s, x)
  {
  }

  /** Only a claim puts a worker to work. */
  lemma OnlyClaimsStartWork(cfg: Config, s: Sys, a: Action)
    requires Step(cfg, s, a).Some? && !a.Claim?
    ensures forall x: WorkerId | Busy(PcOf(Step(cfg, s, a).value, x)) :: Busy(PcOf(s, x))
  {
  }

  /** Only a finish sets COMPLETED, and only a dispatch sets out to. */
  ghost predicate NothingConcluded(s: Sys, s': Sys) {
    && (s'.db.run.status.Completed? ==> s.db.run.status.Completed?)
    && forall x | x in s'.workers :: Concludes(s'.workers[x].pc) ==> s'.workers[x].pc == PcOf(s, x)
  }

  lemma ConcludesNothing(cfg: Config, s: Sys, a: Action)
    requires Step(cfg, s, a).Some? && !a.Dispatch? && !a.Finish?
    ensures NothingConcluded(s, Step(cfg, s, a).value)
  {
    match a
    case Observe(w) => ObserveConcludesNothing(cfg, s, w);
    case Insert(w) => InsertConcludesNothing(cfg, s, w);
    case Settle(w, answer) => SettleConcludesNothing(cfg, s, w, answer);
    case Commit(w, outcome, id) => CommitConcludesNothing(cfg, s, w, outcome, id);
    case _ =>
  }

  lemma ObserveConcludesNothing(cfg: Config, s: Sys, w: WorkerId)
    requires StepObserve(cfg, s, w).Some?
    ensures NothingConcluded(s, StepObserve(cfg, s, w).value)
  {
    PreparedHasNoDecision(cfg, Snapshot(s.db.run, s.db.steps, s.db.evidence), s.db.now);
  }

  lemma InsertConcludesNothing(cfg: Config, s: Sys, w: WorkerId)
    requires StepInsert(cfg, s, w).Some?
    ensures NothingConcluded(s, StepInsert(cfg, s, w).value)
  {
    InsertShape(cfg, s, w);
  }

  lemma SettleConcludesNothing(cfg: Config, s: Sys, w: WorkerId, answer: Answer)
    requires StepSettle(cfg, s, w, answer).Some?
    ensures NothingConcluded(s, StepSettle(cfg, s, w, answer).value)
  {
    SettleShape(cfg, s, StepSettle(cfg, s, w, answer).value, w, answer);
  }

  lemma CommitConcludesNothing(cfg: Config, s: Sys, w: WorkerId, outcome: Outcome, id: Id)
    requires StepCommit(cfg, s, w, outcome, id).Some?
    ensures NothingConcluded(s, StepCommit(cfg, s, w, outcome, id).value)
  {
    CommitShape(cfg, s, w, outcome, id);
  }

  /** The worker is not at work, or has only its finish left. */
  predicate Done(pc: Pc) { !Busy(pc) || pc.Finishing? }

  ghost predicate RowsUntouched(s: Sys, s': Sys) {
    s'.db.steps == s.db.steps && s'.db.run.currentStep == s.db.run.currentStep && s'.completedBy == s.completedBy
  }

  /** A worker that is done moves no row. */
  lemma DoneMovesNoRow(cfg: Config, s: Sys, a: Action)
    requires Step(cfg, s, a).Some? && !a.Finish? && !a.Dispatch?
    requires ActorOf(a).Some? ==> Done(PcOf(s, a.w))
    ensures RowsUntouched(s, Step(cfg, s, a).value)
    ensures ActorOf(a).Some? && TerminalRun(s.db.run.status) && !Busy(PcOf(s, a.w)) ==>
              !Busy(PcOf(Step(cfg, s, a).value, a.w))
  {
  }

  lemma DispatchStaysAlone(cfg: Config, s: Sys, w: WorkerId)
    requires Structure(cfg, s) && Alone(s) && StepDispatch(cfg, s, w).Some?
    ensures Alone(StepDispatch(cfg, s, w).value)
  {
    DispatchShape(cfg, s, w);
    DispatchedRowIsLast(cfg, s, w);
  }

  lemma FinishStaysAlone(cfg: Config, s: Sys, w: WorkerId)
    requires Alone(s) && StepFinish(cfg, s, w).Some?
    ensures Alone(StepFinish(cfg, s, w).value)
  {
  }

  /** What a step leaves of the workers at work. */
  lemma WorkFrame(s: Sys, s': Sys)
    requires OneAtWork(s) && forall x: WorkerId | Busy(PcOf(s', x)) :: Busy(PcOf(s, x))
    ensures OneAtWork(s')
  {
    forall x, y | x in s'.workers && y in s'.workers && Busy(s'.workers[x].pc) && Busy(s'.workers[y].pc) ensures x == y {
      assert Busy(PcOf(s', x)) && Busy(PcOf(s', y));
    }
  }

  lemma ClaimLeavesOneAtWork(cfg: Config, s: Sys, w: WorkerId, id: Id, content: Content)
    requires OneAtWork(s) && StepClaim(cfg, s, w, id, content).Some? && !TakesOver(cfg, s, Claim(w, id, content))
    ensures OneAtWork(StepClaim(cfg, s, w, id, content).value)
  {
  }

  lemma StaysOneAtWork(cfg: Config, s: Sys, a: Action)
    requires OneAtWork(s) && Step(cfg, s, a).Some? && !TakesOver(cfg, s, a)
    ensures OneAtWork(Step(cfg, s, a).value)
  {
    if a.Claim? {
      ClaimLeavesOneAtWork(cfg, s, a.w, a.id, a.content);
    } else {
      OnlyClaimsStartWork(cfg, s, a);
      WorkFrame(s, Step(cfg, s, a).value);
    }
  }

  lemma ConclusionsFrame(s: Sys, s': Sys, actor: Option<WorkerId>)
    requires Alone(s) && NothingConcluded(s, s')
    requires forall x: WorkerId | actor != Some(x) :: PcOf(s', x) == PcOf(s, x)
    requires (actor.Some? ==> Done(PcOf(s, actor.value))) ==> RowsUntouched(s, s')
    requires actor.Some? && s.db.run.status.Completed? && !Busy(PcOf(s, actor.value)) ==> !Busy(PcOf(s', actor.value))
    ensures (exists x | x in s'.workers :: Concludes(s'.workers[x].pc)) || s'.db.run.status.Completed? ==>
              RowsUntouched(s, s')
    ensures s'.db.run.status.Completed? ==> forall x | x in s'.workers :: !Busy(s'.workers[x].pc)
  {
    if x :| x in s'.workers && Concludes(s'.workers[x].pc) {
      assert PcOf(s, x) == s'.workers[x].pc;
    }
    if s'.db.run.status.Completed? {
      forall x | x in s'.workers ensures !Busy(s'.workers[x].pc) {
        assert !Busy(PcOf(s, x)) && s'.workers[x].pc == PcOf(s', x);
      }
    }
  }

  /** Steps that neither dispatch nor finish leave a conclusion, and the row it stands on, alone. */
  lemma ConclusionsKept(cfg: Config, s: Sys, a: Action)
    requires Alone(s) && Step(cfg, s, a).Some? && !a.Dispatch? && !a.Finish?
    ensures var s' := Step(cfg, s, a).value;
            && NothingConcluded(s, s')
            && ((exists x | x in s'.workers :: Concludes(s'.workers[x].pc)) || s'.db.run.status.Completed? ==>
                  RowsUntouched(s, s'))
            && (s'.db.run.status.Completed? ==> forall x | x in s'.workers :: !Busy(s'.workers[x].pc))
  {
    ConcludesNothing(cfg, s, a);
    OnlyTheActorMoves(cfg, s, a);
    if ActorOf(a).Some? ==> Done(PcOf(s, a.w)) {
      DoneMovesNoRow(cfg, s, a);
    }
    ConclusionsFrame(s, Step(cfg, s, a).value, ActorOf(a));
  }

  lemma AloneFrame(s: Sys, s': Sys)
    requires Alone(s) && OneAtWork(s') && NothingConcluded(s, s')
    requires (exists x | x in s'.workers :: Concludes(s'.workers[x].pc)) || s'.db.run.status.Completed? ==>
               RowsUntouched(s, s')
    requires s'.db.run.status.Completed? ==> forall x | x in s'.workers :: !Busy(s'.workers[x].pc)
    ensures Alone(s')
  {
  }

  lemma StepStaysAlone(cfg: Config, s: Sys, a: Action)
    requires Structure(cfg, s) && Alone(s) && Step(cfg, s, a).Some? && !TakesOver(cfg, s, a)
    ensures Alone(Step(cfg, s, a).value)
  {
    if a.Dispatch? {
      DispatchStaysAlone(cfg, s, a.w);
    } else if a.Finish? {
      FinishStaysAlone(cfg, s, a.w);
    } else {
      StaysOneAtWork(cfg, s, a);
      ConclusionsKept(cfg, s, a);
      AloneFrame(s, Step(cfg, s, a).value);
    }
  }

  lemma {:induction false} RunStaysAlone(cfg: Config, s: Sys, trace: seq<Action>)
    requires Wired(cfg) && Invariant(cfg, s) && Alone(s) && NeverTakenOver(cfg, s, trace) && Run(cfg, s, trace).Some?
    ensures Alone(Run(cfg, s, trace).value)
    decreases |trace|
  {
    if trace != [] {
      StepStaysAlone(cfg, s, trace[0]);
      StepKeepsInvariant(cfg, s, trace[0]);
      RunStaysAlone(cfg, Step(cfg, s, trace[0]).value, trace[1..]);
    }
  }

  /**
   * As long as the lease test grants no worker the run while another one is still at work, a COMPLETED
   * run cites what its last step cites: with any number of workers one after the other, jobs retried
   * after a death or a failure, cancellation and recovery included.
   */
  lemma SuccessiveWorkersCompleteLast(cfg: Config, init: Sys, trace: seq<Action>)
    requires Wired(cfg) && Init(cfg, init) && Run(cfg, init, trace).Some? && NeverTakenOver(cfg, init, trace)
    requires Run(cfg, init, trace).value.db.run.status.Completed?
    ensures var s := Run(cfg, init, trace).value;
            var n := s.db.run.currentStep;
            && s.db.run.diagnosis.Some? && s.completedBy == Some(n) && LastRow(s, n)
            && ToSet(s.db.run.diagnosis.value.citations) == ToSet(s.db.steps[n].evidenceIds)
  {
    InitInvariant(cfg, init);
    RunKeepsInvariant(cfg, init, trace);
    RunStaysAlone(cfg, init, trace);
  }

  // ---- Two workers ----

  lemma {:induction false} RunThen(cfg: Config, s: Sys, trace: seq<Action>, a: Action)
    requires Run(cfg, s, trace).Some?
    ensures Run(cfg, s, trace + [a]) == Step(cfg, Run(cfg, s, trace).value, a)
    decreases |trace|
  {
    if trace == [] {
      assert [a][1..] == [];
    } else {
      assert (trace + [a])[1..] == trace[1..] + [a];
      RunThen(cfg, Step(cfg, s, trace[0]).value, trace[1..], a);
    }
  }

  lemma ReachableStep(cfg: Config, s: Sys, a: Action)
    requires Reachable(cfg, s) && Step(cfg, s, a).Some?
    ensures Reachable(cfg, Step(cfg, s, a).value)
  {
    var init, trace :| Init(cfg, init) && Run(cfg, init, trace) == Some(s);
    RunThen(cfg, init, trace, a);
  }

  /** A set of states closed under steps; the proofs below only use this of reachability. */
  ghost predicate Closed(cfg: Config, reach: Sys -> bool) {
    forall s, a | reach(s) && Step(cfg, s, a).Some? :: reach(Step(cfg, s, a).value)
  }

  lemma ReachClaim(cfg: Config, reach: Sys -> bool, s: Sys, w: WorkerId, id: Id, content: Content, s': Sys)
    requires Closed(cfg, reach) && reach(s) && StepClaim(cfg, s, w, id, content) == Some(s')
    ensures reach(s')
  {
    assert Step(cfg, s, Claim(w, id, content)) == Some(s');
  }

  lemma ReachObserve(cfg: Config, reach: Sys -> bool, s: Sys, w: WorkerId, s': Sys)
    requires Closed(cfg, reach) && reach(s) && StepObserve(cfg, s, w) == Some(s')
    ensures reach(s')
  {
    assert Step(cfg, s, Observe(w)) == Some(s');
  }

  lemma ReachInsert(cfg: Config, reach: Sys -> bool, s: Sys, w: WorkerId, s': Sys)
    requires Closed(cfg, reach) && reach(s) && StepInsert(cfg, s, w) == Some(s')
    ensures reach(s')
  {
    assert Step(cfg, s, Insert(w)) == Some(s');
  }

  lemma ReachRule(cfg: Config, reach: Sys -> bool, s: Sys, w: WorkerId, d: Decision, s': Sys)
    requires Closed(cfg, reach) && reach(s) && StepRule(cfg, s, w, d) == Some(s')
    ensures reach(s')
  {
    assert Step(cfg, s, Rule(w, d)) == Some(s');
  }

  lemma ReachRecord(cfg: Config, reach: Sys -> bool, s: Sys, w: WorkerId, s': Sys)
    requires Closed(cfg, reach) && reach(s) && StepRecord(cfg, s, w) == Some(s')
    ensures reach(s')
  {
    assert Step(cfg, s, Record(w)) == Some(s');
  }

  lemma ReachCheck(cfg: Config, reach: Sys -> bool, s: Sys, w: WorkerId, s': Sys)
    requires Closed(cfg, reach) && reach(s) && StepCheck(cfg, s, w) == Some(s')
    ensures reach(s')
  {
    assert Step(cfg, s, Check(w)) == Some(s');
  }

  lemma ReachDispatch(cfg: Config, reach: Sys -> bool, s: Sys, w: WorkerId, s': Sys)
    requires Closed(cfg, reach) && reach(s) && StepDispatch(cfg, s, w) == Some(s')
    ensures reach(s')
  {
    assert Step(cfg, s, Dispatch(w)) == Some(s');
  }

  lemma ReachFinish(cfg: Config, reach: Sys -> bool, s: Sys, w: WorkerId, s': Sys)
    requires Closed(cfg, reach) && reach(s) && StepFinish(cfg, s, w) == Some(s')
    ensures reach(s')
  {
    assert Step(cfg, s, Finish(w)) == Some(s');
  }

  const ROOMY := Rules(ItemRules((c: Content) => c, (c: Content) => c, (n: int) => "", map[]),
                       0, (v: View) => 0, (v: View) => 0, (h: Header) => Some(h), (v: View) => Some(v))

  const NO_SECRETS := Redaction.Secrets((key: string) => false, (s: string) => false, (s: string) => s)

  /** A rules-only orchestrator without tools and without size limits. */
  ghost function Example(runId: Id, target: Target): Config {
    var text := TextRules((d: Decision) => Conforms(d), (d: Decision) => false);
    Config(runId, target, map[], RulesOnly, ROOMY, text, NO_SECRETS, (c: Content) => None,
           (c: Content) => Redaction.SanitizeContent(NO_SECRETS, (c: Content) => None, c),
           (r: Request) => Build(ROOMY, r),
           (d: Decision, visible: set<Id>) => Validate(text, map[], d, visible),
           (i: PolicyInput) => Deny("TOOL_NOT_REGISTERED"))
  }

  /** What the rules conclude from one piece of evidence. */
  function Conclusion(id: Id): Decision {
    Decision(Complete, None, map[], "Nothing but the alert", [id], None, Some(Diagnosis("UNKNOWN", [id])))
  }

  function Queued(): Sys {
    Sys(Db(RunRow(RunStatus.Queued, 0, 6, 0, 6, 0, 0, 0, 0, 0, 300, false, None, None, None, None, JNull, None, ""),
           map[], [], 0), map[], map[], map[], None)
  }

  /** The configuration builds every context without a conflict, and its rules may conclude from the alert. */
  ghost predicate Easy(cfg: Config, id: Id) {
    && cfg.rules.items.ttls == map[]
    && (forall snap, now | Calm(snap) && 0 <= now < 100 :: PreparesCalmly(cfg, snap, now))
    && (forall f: Frame, now | Calm(f.snap) && 0 <= now < 100
                               && id in EligibleIds(cfg, f, now) && !f.context.selection.conflicting ::
          RuleOutcome(cfg, f, now, Conclusion(id)) == Decided(f, Conclusion(id), Basis(now, JNull)))
  }

  predicate Calm(snap: Snapshot) {
    && !snap.run.cancelRequested && snap.run.deadline == Some(300) && snap.run.targetUid == JNull
    && snap.run.currentStep < snap.run.maxSteps && snap.run.toolCallsUsed < snap.run.maxToolCalls
  }

  ghost predicate PreparesCalmly(cfg: Config, snap: Snapshot, now: int) {
    var pc := Prepare(cfg, snap, now);
    pc.Ready? && pc.f.snap == snap && pc.f.now == now && pc.f.budget.None? && !pc.f.context.selection.conflicting
  }

  /** Without a bound uid no two observations are comparable, so a context carries no conflict. */
  lemma RoomyContext(cfg: Config, snap: Snapshot, now: int)
    requires cfg.reasoner.RulesOnly? && cfg.rules == ROOMY
    requires forall r: Request :: cfg.build(r) == Build(ROOMY, r)
    requires Calm(snap) && now < 300
    ensures PreparesCalmly(cfg, snap, now)
  {
    var request := RequestOf(cfg, snap, now, None);
    assert cfg.build(request) == Build(ROOMY, request);
    assert SanitizerKeepsMarks(ROOMY);
    BuiltContextDescribesRun(ROOMY, request);
    forall item | item in Candidates(ROOMY, request) ensures !Comparable(item) {
      CandidateDescribesRow(ROOMY, request, item);
    }
  }

  lemma ExampleIsEasy(runId: Id, target: Target, id: Id)
    ensures Wired(Example(runId, target)) && Easy(Example(runId, target), id)
  {
    var cfg := Example(runId, target);
    assert SanitizerKeepsMarks(ROOMY);
    forall snap, now | Calm(snap) && 0 <= now < 100 ensures PreparesCalmly(cfg, snap, now) {
      RoomyContext(cfg, snap, now);
    }
  }

  /** The run is being worked on, with `n` steps behind it and only the alert collected. */
  predicate Working(db: Db, n: nat, row: Evidence) {
    && db.run.status.Running? && db.run.currentStep == n && db.run.maxSteps == 6
    && db.run.toolCallsUsed == 0 && db.run.maxToolCalls == 6
    && db.run.deadline == Some(300) && !db.run.cancelRequested && db.run.targetUid == JNull
    && db.evidence == [row] && 0 <= db.now < 100
  }

  /** The worker has inserted step `n + 1` and is about to ask the rules. */
  predicate InRules(s: Sys, w: WorkerId, n: nat, row: Evidence) {
    var pc := PcOf(s, w);
    && pc.Ruling? && Sequence(pc.f) == n + 1 && pc.f.snap.evidence == [row] && Calm(pc.f.snap)
    && !pc.f.context.selection.conflicting
    && n + 1 in s.db.steps && s.db.steps[n + 1].evidenceIds == []
  }

  /** A worker at the loop top observes the run and inserts the next row. */
  lemma TakeStep(cfg: Config, reach: Sys -> bool, s: Sys, w: WorkerId, n: nat, row: Evidence) returns (s': Sys)
    requires Easy(cfg, row.id) && Closed(cfg, reach) && reach(s)
    requires PcOf(s, w).LoopTop? && Working(s.db, n, row) && n < 6 && n + 1 !in s.db.steps
    ensures reach(s')
    ensures w in s'.workers && s'.workers == s.workers[w := s'.workers[w]] && s'.completedBy == s.completedBy
    ensures n + 1 in s'.db.steps && s'.db == s.db.(steps := s.db.steps[n + 1 := s'.db.steps[n + 1]])
    ensures InRules(s', w, n, row)
  {
    var snap := Snapshot(s.db.run, s.db.steps, s.db.evidence);
    assert PreparesCalmly(cfg, snap, s.db.now);
    var observed := StepObserve(cfg, s, w).value;
    s' := StepInsert(cfg, observed, w).value;
    ReachObserve(cfg, reach, s, w, observed);
    ReachInsert(cfg, reach, observed, w, s');
  }

  /** In an unfinished, undisturbed run the worker decides, records, checks and advances. */
  lemma Conclude(cfg: Config, reach: Sys -> bool, s: Sys, w: WorkerId, n: nat, row: Evidence) returns (s': Sys)
    requires Closed(cfg, reach) && reach(s) && Working(s.db, n, row) && InRules(s, w, n, row)
    requires var f := PcOf(s, w).f;
             RuleOutcome(cfg, f, s.db.now, Conclusion(row.id)) == Decided(f, Conclusion(row.id), Basis(s.db.now, JNull))
    ensures reach(s') && w in s'.workers && s'.workers == s.workers[w := s'.workers[w]]
    ensures Concludes(s'.workers[w].pc) && s'.workers[w].pc.diagnosis == Conclusion(row.id).diagnosis
    ensures s'.workers[w].pc.step == n + 1 && s'.completedBy == s.completedBy
    ensures s'.db.run == s.db.run.(currentStep := n + 1) && s'.db.steps.Keys == s.db.steps.Keys
    ensures s'.db.evidence == s.db.evidence && s'.db.now == s.db.now
  {
    var decided := StepRule(cfg, s, w, Conclusion(row.id)).value;
    var recorded := StepRecord(cfg, decided, w).value;
    var cleared := StepCheck(cfg, recorded, w).value;
    ReachRule(cfg, reach, s, w, Conclusion(row.id), decided);
    ReachRecord(cfg, reach, decided, w, recorded);
    ReachCheck(cfg, reach, recorded, w, cleared);
    s' := DispatchCompletion(cfg, reach, cleared, w);
  }

  lemma DispatchCompletion(cfg: Config, reach: Sys -> bool, s: Sys, w: WorkerId) returns (s': Sys)
    requires Closed(cfg, reach) && reach(s) && PcOf(s, w).Cleared? && PcOf(s, w).d.kind.Complete?
    requires Sequence(PcOf(s, w).f) in s.db.steps
    ensures reach(s') && w in s'.workers && s'.workers == s.workers[w := s'.workers[w]]
    ensures var pc, pc' := PcOf(s, w), s'.workers[w].pc;
            && Concludes(pc') && pc'.diagnosis == pc.d.diagnosis && pc'.step == Sequence(pc.f)
            && s'.db.run == s.db.run.(currentStep := Sequence(pc.f)) && s'.completedBy == s.completedBy
            && s'.db.steps.Keys == s.db.steps.Keys && s'.db.evidence == s.db.evidence && s'.db.now == s.db.now
  {
    s' := StepDispatch(cfg, s, w).value;
    ReachDispatch(cfg, reach, s, w, s');
  }

  /** The first worker, from its claim to the point where only its finish is left. */
  lemma FirstWorker(cfg: Config, reach: Sys -> bool, id: Id) returns (s: Sys, row: Evidence)
    requires Easy(cfg, id) && Closed(cfg, reach) && reach(Queued())
    ensures reach(s) && row.id == id && row.kind.AlertPayload?
    ensures Working(s.db, 1, row) && s.db.steps.Keys == {1} && s.db.now == 0
    ensures Concludes(PcOf(s, 1)) && PcOf(s, 1).diagnosis == Conclusion(id).diagnosis && PcOf(s, 1).step == 1
    ensures s.workers.Keys == {1} && s.db.run.leaseExpires == Some(30)
  {
    var claimed := StepClaim(cfg, Queued(), 1, id, map[]).value;
    ReachClaim(cfg, reach, Queued(), 1, id, map[], claimed);
    row := claimed.db.evidence[0];
    var inRules := TakeStep(cfg, reach, claimed, 1, 0, row);
    MayConclude(cfg, PcOf(inRules, 1).f, row);
    s := Conclude(cfg, reach, inRules, 1, 0, row);
  }

  lemma MayConclude(cfg: Config, f: Frame, row: Evidence)
    requires Easy(cfg, row.id) && Calm(f.snap) && !f.context.selection.conflicting && f.snap.evidence == [row]
    requires row.runId == cfg.runId && row.content == map[] && row.collectedAt == Some(0) && row.expiresAt.None?
    ensures RuleOutcome(cfg, f, 0, Conclusion(row.id)) == Decided(f, Conclusion(row.id), Basis(0, JNull))
  {
    assert row in f.snap.evidence;
    assert row.id in EligibleIds(cfg, f, 0);
  }

  /** A second worker claims once the lease has expired, and inserts the next row. */
  lemma SecondWorker(cfg: Config, reach: Sys -> bool, s: Sys, row: Evidence, other: Id) returns (s': Sys)
    requires Easy(cfg, row.id) && Closed(cfg, reach) && reach(s) && other != row.id
    requires Working(s.db, 1, row) && s.db.steps.Keys == {1} && s.db.now == 0 && row.kind.AlertPayload?
    requires s.workers.Keys == {1} && s.db.run.leaseExpires == Some(30)
    ensures reach(s') && s'.db.steps.Keys == {1, 2} && s'.db.steps[2].evidenceIds == []
    ensures s'.db.run.status.Running? && PcOf(s', 1) == PcOf(s, 1)
  {
    var later := s.(db := s.db.(now := 31));
    assert Step(cfg, s, Tick(31)) == Some(later);
    var taken := StepClaim(cfg, later, 2, other, map[]).value;
    ReachClaim(cfg, reach, later, 2, other, map[], taken);
    s' := TakeStep(cfg, reach, taken, 2, 1, row);
  }

  /**
   * Two workers: the second claims after the lease expired and inserts a row between the first
   * one's last step and its finish. The COMPLETED run's last row cites nothing.
   */
  lemma SecondWorkerCanAddARow(runId: Id, target: Target, id: Id, other: Id) returns (s: Sys)
    requires other != id
    ensures var cfg := Example(runId, target); Wired(cfg) && Reachable(cfg, s) && s.db.run.status.Completed?
    ensures s.completedBy == Some(1) && LastRow(s, 2) && s.db.steps[2].evidenceIds == []
    ensures s.db.run.diagnosis.Some? && s.db.run.diagnosis.value.citations == [id]
  {
    var cfg := Example(runId, target);
    ExampleIsEasy(runId, target, id);
    assert Run(cfg, Queued(), []) == Some(Queued());
    var reach := (x: Sys) => Reachable(cfg, x);
    forall x, a | reach(x) && Step(cfg, x, a).Some? ensures reach(Step(cfg, x, a).value) {
      ReachableStep(cfg, x, a);
    }
    s := TwoWorkers(cfg, reach, id, other);
  }

  lemma TwoWorkers(cfg: Config, reach: Sys -> bool, id: Id, other: Id) returns (s: Sys)
    requires Easy(cfg, id) && Closed(cfg, reach) && reach(Queued()) && other != id
    ensures reach(s) && s.db.run.status.Completed?
    ensures s.completedBy == Some(1) && LastRow(s, 2) && s.db.steps[2].evidenceIds == []
    ensures s.db.run.diagnosis.Some? && s.db.run.diagnosis.value.citations == [id]
  {
    var first, row := FirstWorker(cfg, reach, id);
    var second := SecondWorker(cfg, reach, first, row, other);
    s := StepFinish(cfg, second, 1).value;
    ReachFinish(cfg, reach, second, 1, s);
  }
}
