/** The invariant of the whole world of remediation, and its preservation by every action. */
module RemediationInvariants {
  import opened Common
  import opened Domain
  import opened OpsDatabase
  import opened OpsInvariants
  import opened OpsConsistency
  import opened Remediation
  import D = OpsDatabase

  // ---- What a worker or a deletion relies on never changes back ----

  predicate PlanFixed(s: PlanStatus) { s.Executable? || s.Executed? }

  /** Rows stay, and what is finished or started stays so. */
  ghost predicate Evolves(db: Db, db': Db)
    requires RefsOk(db)
  {
    && |db.incidents| <= |db'.incidents| && |db.runs| <= |db'.runs|
    && |db.plans| <= |db'.plans| && |db.executions| <= |db'.executions|
    && (forall r | 0 <= r < |db.runs| ::
          && db'.runs[r].incident == db.runs[r].incident
          && (TerminalRun(db.runs[r].status) ==> db'.runs[r].status == db.runs[r].status)
          && (db.runs[r].status.Running? ==> db'.runs[r].status.Running? || TerminalRun(db'.runs[r].status)))
    && (forall x | 0 <= x < |db.executions| ::
          && db'.executions[x].plan == db.executions[x].plan && db'.executions[x].key == db.executions[x].key
          && (db'.executions[x].status.Prepared? ==> db.executions[x].status.Prepared?))
    && (forall p | 0 <= p < |db.plans| && PlanFixed(db.plans[p].status) ::
          && PlanFixed(db'.plans[p].status)
          && db'.plans[p].target == db.plans[p].target && db'.plans[p].dryRun == db.plans[p].dryRun)
  }

  function Target(db: Db, x: Id): PodTarget
    requires RefsOk(db) && x < |db.executions|
  {
    db.plans[db.executions[x].plan].target
  }

  predicate Deleted(deletions: seq<Deletion>, x: Id) {
    exists k | 0 <= k < |deletions| :: deletions[k].execution == x
  }

  ghost predicate PcOk(db: Db, deletions: seq<Deletion>, pc: Pc)
    requires RefsOk(db)
  {
    match pc
    case Idle => true
    case Investigating(r) => r < |db.runs| && (db.runs[r].status.Running? || TerminalRun(db.runs[r].status))
    case CollectingFor(r) => r < |db.runs|
    case Deleting(x, target) =>
      && x < |db.executions| && !db.executions[x].status.Prepared? && target == Target(db, x)
      && !Deleted(deletions, x)
    case DeleteRaised(x) => x < |db.executions|
    case DeleteReturned(x) => x < |db.executions|
    case VerifyingRecovery(x) => x < |db.executions|
    case VerifyingAlert(i) => i < |db.incidents|
  }

  /** No two workers are about to delete for the same execution. */
  ghost predicate OneDeleter(s: World) {
    forall v, w | v in s.workers && w in s.workers && s.workers[v].Deleting? && s.workers[w].Deleting? ::
      s.workers[v].execution == s.workers[w].execution ==> v == w
  }

  /** Each deletion belongs to a started execution, aims at its plan's pod, and is the only one for it. */
  ghost predicate DeletionsOk(s: World)
    requires RefsOk(s.db)
  {
    && (forall k | 0 <= k < |s.deletions| ::
          var d := s.deletions[k];
          && d.execution < |s.db.executions| && !s.db.executions[d.execution].status.Prepared?
          && d.target == Target(s.db, d.execution))
    && (forall j, k | 0 <= j < k < |s.deletions| :: s.deletions[j].execution != s.deletions[k].execution)
  }

  ghost predicate WorkersOk(s: World)
    requires RefsOk(s.db)
  {
    forall w | w in s.workers :: PcOk(s.db, s.deletions, s.workers[w])
  }

  ghost predicate WorldOk(s: World) {
    Inv(s.db) && WorkersOk(s) && OneDeleter(s) && DeletionsOk(s)
  }

  /** The invariant is kept, and nothing finished or started is taken back. */
  ghost predicate Keeps(s: World, s': World)
    requires RefsOk(s.db)
  {
    WorldOk(s') && Evolves(s.db, s'.db)
  }

  // ---- Database steps seen by the workers ----

  /** Executions belong to plans whose target no longer changes. */
  lemma TargetStays(db: Db, db': Db, x: Id)
    requires Consistent(db) && RefsOk(db') && Evolves(db, db') && x < |db.executions|
    ensures Target(db', x) == Target(db, x)
  {
  }

  lemma PcStays(db: Db, db': Db, deletions: seq<Deletion>, pc: Pc)
    requires Consistent(db) && RefsOk(db') && Evolves(db, db') && PcOk(db, deletions, pc)
    ensures PcOk(db', deletions, pc)
  {
    if pc.Deleting? {
      TargetStays(db, db', pc.execution);
    }
  }

  /** A step of worker `w` (or of nobody, when its place does not change) that deletes nothing. */
  lemma WorldStep(s: World, s': World, w: WorkerId)
    requires WorldOk(s) && Inv(s'.db) && Evolves(s.db, s'.db) && s'.deletions == s.deletions
    requires s'.workers == s.workers || (w in s'.workers && s'.workers == s.workers[w := s'.workers[w]])
    requires w in s'.workers && s'.workers != s.workers ==>
               PcOk(s'.db, s'.deletions, s'.workers[w]) && !s'.workers[w].Deleting?
    ensures Keeps(s, s')
  {
    forall x | x in s'.workers ensures PcOk(s'.db, s'.deletions, s'.workers[x]) {
      if x in s.workers && s'.workers[x] == s.workers[x] {
        PcStays(s.db, s'.db, s.deletions, s.workers[x]);
      }
    }
    forall k | 0 <= k < |s.deletions| ensures s.deletions[k].target == Target(s'.db, s.deletions[k].execution) {
      TargetStays(s.db, s'.db, s.deletions[k].execution);
    }
  }

  // ---- Every transaction keeps the invariant and lets the world evolve ----

  lemma ClaimRunOk(db: Db, r: Id)
    requires Inv(db) && r < |db.runs|
    ensures Inv(D.ClaimRun(db, r)) && Evolves(db, D.ClaimRun(db, r))
  {
    ClaimRunLog(db, r);
    RunTx(db, D.ClaimRun(db, r), r);
  }

  lemma FinishRunOk(db: Db, r: Id, to: RunStatus)
    requires Inv(db) && r < |db.runs| && TerminalRun(to)
    requires db.runs[r].status.Running? || TerminalRun(db.runs[r].status)
    ensures Inv(D.FinishRun(db, r, to)) && Evolves(db, D.FinishRun(db, r, to))
  {
    FinishRunLog(db, r, to);
    FinishRunConsistent(db, r, to);
  }

  lemma RequestCancelOk(db: Db, r: Id)
    requires Inv(db)
    requires D.RequestCancel(db, r).Ok?
    ensures Inv(D.RequestCancel(db, r).value) && Evolves(db, D.RequestCancel(db, r).value)
  {
    RequestCancelLog(db, r);
    RequestCancelConsistent(db, r);
  }

  lemma BeginDiagnosisOk(db: Db, r: Id)
    requires Inv(db)
    requires D.BeginDiagnosis(db, r).Ok?
    ensures Inv(D.BeginDiagnosis(db, r).value) && Evolves(db, D.BeginDiagnosis(db, r).value)
  {
    BeginDiagnosisLog(db, r);
    RunTx(db, D.BeginDiagnosis(db, r).value, r);
  }

  lemma EndDiagnosisOk(db: Db, r: Id)
    requires Inv(db)
    requires D.EndDiagnosis(db, r).Ok?
    ensures Inv(D.EndDiagnosis(db, r).value) && Evolves(db, D.EndDiagnosis(db, r).value)
  {
    EndDiagnosisLog(db, r);
    RunTx(db, D.EndDiagnosis(db, r).value, r);
  }

  lemma FailRunOk(db: Db, r: Id)
    requires Inv(db)
    requires D.FailRun(db, r).Ok?
    ensures Inv(D.FailRun(db, r).value) && Evolves(db, D.FailRun(db, r).value)
  {
    FailRunLog(db, r);
    RunTx(db, D.FailRun(db, r).value, r);
  }

  lemma CreatePlanOk(db: Db, i: Id, target: PodTarget, wellFormed: bool)
    requires Inv(db)
    requires D.CreatePlan(db, i, target, wellFormed).Ok?
    ensures Inv(D.CreatePlan(db, i, target, wellFormed).value) && Evolves(db, D.CreatePlan(db, i, target, wellFormed).value)
  {
    CreatePlanLog(db, i, target, wellFormed);
    CreatePlanConsistent(db, i, target, wellFormed);
  }

  lemma DryRunPlanOk(db: Db, p: Id, inspection: Inspection, namespaces: set<string>)
    requires Inv(db)
    requires D.DryRunPlan(db, p, inspection, namespaces).Ok?
    ensures Inv(D.DryRunPlan(db, p, inspection, namespaces).value)
    ensures Evolves(db, D.DryRunPlan(db, p, inspection, namespaces).value)
  {
    DryRunPlanLog(db, p, inspection, namespaces);
    DryRunPlanConsistent(db, p, inspection, namespaces);
  }

  lemma ApprovePlanOk(db: Db, p: Id, task: Option<Id>)
    requires Inv(db) && (task.Some? ==> task.value < |db.tasks|)
    requires D.ApprovePlan(db, p, task).Ok?
    ensures Inv(D.ApprovePlan(db, p, task).value) && Evolves(db, D.ApprovePlan(db, p, task).value)
  {
    ApprovePlanLog(db, p, task);
    ApprovePlanConsistent(db, p, task);
  }

  lemma RejectPlanOk(db: Db, p: Id, task: Option<Id>)
    requires Inv(db) && (task.Some? ==> task.value < |db.tasks|)
    requires D.RejectPlan(db, p, task).Ok?
    ensures Inv(D.RejectPlan(db, p, task).value) && Evolves(db, D.RejectPlan(db, p, task).value)
  {
    RejectPlanLog(db, p, task);
    RejectPlanConsistent(db, p, task);
  }

  lemma BeginExecutionOk(db: Db, x: Id)
    requires Inv(db)
    requires D.BeginExecution(db, x).Ok?
    ensures Inv(D.BeginExecution(db, x).value) && Evolves(db, D.BeginExecution(db, x).value)
  {
    BeginExecutionLog(db, x);
    BeginExecutionConsistent(db, x);
  }

  lemma RecordFailureOk(db: Db, x: Id)
    requires Inv(db) && x < |db.executions|
    requires D.RecordFailure(db, x).Ok?
    ensures Inv(D.RecordFailure(db, x).value) && Evolves(db, D.RecordFailure(db, x).value)
  {
    RecordFailureLog(db, x);
    RecordFailureConsistent(db, x);
  }

  lemma RecordSuccessOk(db: Db, x: Id)
    requires Inv(db) && x < |db.executions|
    requires D.RecordSuccess(db, x).Ok?
    ensures Inv(D.RecordSuccess(db, x).value) && Evolves(db, D.RecordSuccess(db, x).value)
  {
    RecordSuccessLog(db, x);
    RecordSuccessConsistent(db, x);
  }

  lemma RecordVerificationOk(db: Db, x: Id, healthy: bool)
    requires Inv(db) && x < |db.executions|
    requires D.RecordVerification(db, x, healthy).Ok?
    ensures Inv(D.RecordVerification(db, x, healthy).value) && Evolves(db, D.RecordVerification(db, x, healthy).value)
  {
    RecordVerificationLog(db, x, healthy);
    RecordVerificationConsistent(db, x, healthy);
  }

  /** Ending execution `x` and touching incidents and tasks. */
  lemma EndingEvolves(db: Db, db': Db, x: Id)
    requires RefsOk(db) && x < |db.executions| && |db'.incidents| == |db.incidents|
    requires db'.runs == db.runs && db'.plans == db.plans && |db'.executions| == |db.executions|
    requires db'.executions == db.executions[x := db.executions[x].(status := db'.executions[x].status)]
    requires !db'.executions[x].status.Prepared?
    ensures Evolves(db, db')
  {
  }

  lemma FailExecutionOk(db: Db, x: Id)
    requires Inv(db)
    requires D.FailExecution(db, x).Ok?
    ensures Inv(D.FailExecution(db, x).value) && Evolves(db, D.FailExecution(db, x).value)
  {
    FailExecutionLog(db, x);
    FailExecutionConsistent(db, x);
    FailExecutionShape(db, x);
    EndingEvolves(db, D.FailExecution(db, x).value, x);
  }

  lemma ResolveIncidentOk(db: Db, i: Id, healthy: bool, task: Option<Id>)
    requires Inv(db) && i < |db.incidents| && (task.Some? ==> task.value < |db.tasks|)
    requires D.ResolveIncident(db, i, healthy, task).Ok?
    ensures Inv(D.ResolveIncident(db, i, healthy, task).value) && Evolves(db, D.ResolveIncident(db, i, healthy, task).value)
  {
    ResolveIncidentLog(db, i, healthy, task);
    ResolveIncidentConsistent(db, i, healthy, task);
  }

  lemma RecoverRunOk(db: Db, r: Id)
    requires Inv(db) && r < |db.runs| && ActiveRun(db.runs[r].status)
    ensures Inv(D.RecoverRun(db, r)) && Evolves(db, D.RecoverRun(db, r))
  {
    RecoverRunLog(db, r);
    RecoverRunConsistent(db, r);
  }

  lemma RecoverExecutionOk(db: Db, x: Id)
    requires Inv(db) && x < |db.executions| && db.executions[x].status.Running?
    ensures Inv(D.RecoverExecution(db, x)) && Evolves(db, D.RecoverExecution(db, x))
  {
    RecoverExecutionLog(db, x);
    RecoverExecutionConsistent(db, x);
  }

  /** Adding an incident, a task or a run, and moving a task. */
  lemma InsertOk(db: Db, db': Db)
    requires Inv(db)
    requires || db' == D.AddIncident(db)
             || (exists i: Id, kind, related :: i < |db.incidents| && db' == AddTask(db, i, kind, related))
             || (exists i: Id :: i < |db.incidents| && db' == db.(runs := db.runs + [RunRow(i, None, Queued)]))
    ensures Inv(db') && Evolves(db, db')
  {
    InsertKeepsLog(db, db');
    assert forall r | 0 <= r < |db.runs| :: db'.runs[r] == db.runs[r];
    DiagnosingKept(db, db', |db.incidents|);
    RemediatingKept(db, db', |db.incidents|);
    PlannedKept(db, db', |db.incidents|);
    AccountedSame(db, db');
  }

  lemma TransitionTaskOk(db: Db, t: Id, to: TaskStatus)
    requires Inv(db) && D.TransitionTask(db, t, to).Ok?
    ensures Inv(D.TransitionTask(db, t, to).value) && Evolves(db, D.TransitionTask(db, t, to).value)
  {
    var db' := D.TransitionTask(db, t, to).value;
    SetTaskLog(db, t, to);
    DiagnosingKept(db, db', |db.incidents|);
    RemediatingKept(db, db', |db.incidents|);
    PlannedKept(db, db', |db.incidents|);
    AccountedSame(db, db');
  }

  lemma CreateExecutionOk(db: Db, p: Id, key: string)
    requires Inv(db) && D.CreateExecution(db, p, key).Ok?
    ensures Inv(D.CreateExecution(db, p, key).value) && Evolves(db, D.CreateExecution(db, p, key).value)
  {
    var db' := D.CreateExecution(db, p, key).value;
    InsertKeepsLog(db, db');
    AddExecution(db, db', ExecutionRow(p, key, None, Prepared));
  }

  lemma ReceiveResolvedOk(db: Db, i: Id)
    requires Inv(db) && i < |db.incidents| && D.ReceiveResolved(db, i).Ok?
    ensures Inv(D.ReceiveResolved(db, i).value) && Evolves(db, D.ReceiveResolved(db, i).value)
  {
    if !db.incidents[i].Verifying? {
      SetIncidentLog(db, i, Verifying);
    }
    ReceiveResolvedConsistent(db, i);
  }

  // ---- The sweep ----

  lemma EvolvesTransitive(a: Db, b: Db, c: Db)
    requires RefsOk(a) && RefsOk(b) && Evolves(a, b) && Evolves(b, c)
    ensures Evolves(a, c)
  {
  }

  lemma RecoverRunShape(db: Db, r: Id)
    requires RefsOk(db) && r < |db.runs|
    ensures var db' := RecoverRun(db, r);
            && db'.executions == db.executions && !ActiveRun(db'.runs[r].status)
            && db'.runs == db.runs[r := db'.runs[r]]
  {
  }

  lemma RecoverExecutionShape(db: Db, x: Id)
    requires RefsOk(db) && x < |db.executions|
    ensures var db' := RecoverExecution(db, x);
            && db'.runs == db.runs && db'.executions[x].status.Failed?
            && db'.executions == db.executions[x := db'.executions[x]]
  {
  }

  /** The sweep ends exactly the listed runs. */
  lemma {:induction false} RecoverRunsRows(db: Db, rs: seq<Id>)
    requires RefsOk(db) && Below(rs, |db.runs|)
    ensures var db' := RecoverRuns(db, rs);
            && db'.executions == db.executions && |db'.runs| == |db.runs|
            && forall r | 0 <= r < |db.runs| ::
                 if r in rs then !ActiveRun(db'.runs[r].status) else db'.runs[r] == db.runs[r]
    decreases |rs|
  {
    if rs != [] {
      var last := |rs| - 1;
      RecoverRunsRows(db, rs[..last]);
      RecoverRunShape(RecoverRuns(db, rs[..last]), rs[last]);
      assert rs == rs[..last] + [rs[last]];
    }
  }

  lemma {:induction false} RecoverRunsOk(db: Db, rs: seq<Id>)
    requires Inv(db) && Below(rs, |db.runs|) && Distinct(rs)
    requires forall k | 0 <= k < |rs| :: ActiveRun(db.runs[rs[k]].status)
    ensures Inv(RecoverRuns(db, rs)) && Evolves(db, RecoverRuns(db, rs))
    decreases |rs|
  {
    if rs != [] {
      var last := |rs| - 1;
      RecoverRunsOk(db, rs[..last]);
      RecoverRunsRows(db, rs[..last]);
      SweepOneRecoverRun(db, RecoverRuns(db, rs[..last]), rs[last]);
    }
  }

  lemma SweepOneRecoverRun(db: Db, before: Db, r: Id)
    requires RefsOk(db) && Inv(before) && Evolves(db, before) && r < |before.runs| && ActiveRun(before.runs[r].status)
    ensures Inv(RecoverRun(before, r)) && Evolves(db, RecoverRun(before, r))
  {
    RecoverRunOk(before, r);
    EvolvesTransitive(db, before, RecoverRun(before, r));
  }

  /** The sweep ends exactly the listed executions. */
  lemma {:induction false} RecoverExecutionsRows(db: Db, xs: seq<Id>)
    requires RefsOk(db) && Below(xs, |db.executions|)
    ensures var db' := RecoverExecutions(db, xs);
            && db'.runs == db.runs && |db'.executions| == |db.executions|
            && forall x | 0 <= x < |db.executions| ::
                 if x in xs then !db'.executions[x].status.Running? else db'.executions[x] == db.executions[x]
    decreases |xs|
  {
    if xs != [] {
      var last := |xs| - 1;
      RecoverExecutionsRows(db, xs[..last]);
      RecoverExecutionShape(RecoverExecutions(db, xs[..last]), xs[last]);
      assert xs == xs[..last] + [xs[last]];
    }
  }

  lemma {:induction false} RecoverExecutionsOk(db: Db, xs: seq<Id>)
    requires Inv(db) && Below(xs, |db.executions|) && Distinct(xs)
    requires forall k | 0 <= k < |xs| :: db.executions[xs[k]].status.Running?
    ensures Inv(RecoverExecutions(db, xs)) && Evolves(db, RecoverExecutions(db, xs))
    decreases |xs|
  {
    if xs != [] {
      var last := |xs| - 1;
      RecoverExecutionsOk(db, xs[..last]);
      RecoverExecutionsRows(db, xs[..last]);
      SweepOneRecoverExecution(db, RecoverExecutions(db, xs[..last]), xs[last]);
    }
  }

  lemma SweepOneRecoverExecution(db: Db, before: Db, x: Id)
    requires RefsOk(db) && Inv(before) && Evolves(db, before)
    requires x < |before.executions| && before.executions[x].status.Running?
    ensures Inv(RecoverExecution(before, x)) && Evolves(db, RecoverExecution(before, x))
  {
    RecoverExecutionOk(before, x);
    EvolvesTransitive(db, before, RecoverExecution(before, x));
  }

  lemma RecoverOk(db: Db, rs: seq<Id>, xs: seq<Id>, runCutoff: int, executionCutoff: int)
    requires Inv(db) && Sweepable(db, rs, xs, runCutoff, executionCutoff)
    ensures var db' := D.Recover(db, rs, xs);
            && Inv(db') && Evolves(db, db')
            && (forall r | 0 <= r < |db.runs| ::
                  if r in rs then !ActiveRun(db'.runs[r].status) else db'.runs[r] == db.runs[r])
            && (forall x | 0 <= x < |db.executions| ::
                  if x in xs then !db'.executions[x].status.Running? else db'.executions[x] == db.executions[x])
            && |db'.runs| == |db.runs| && |db'.executions| == |db.executions|
  {
    RecoverRunsOk(db, rs);
    RecoverRunsRows(db, rs);
    var swept := RecoverRuns(db, rs);
    RecoverExecutionsOk(swept, xs);
    RecoverExecutionsRows(swept, xs);
    EvolvesTransitive(db, swept, D.Recover(db, rs, xs));
  }

  // ---- Every action ----

  /** A request that changes nothing but the tables. */
  lemma RequestKeeps(s: World, r: Result<Db, Error>)
    requires WorldOk(s) && (r.Ok? ==> Inv(r.value) && Evolves(s.db, r.value))
    ensures Keeps(s, Request(s, r))
  {
    if r.Ok? {
      WorldStep(s, Request(s, r), 0);
    }
  }

  lemma JobKeeps(s: World, w: WorkerId, r: Result<Db, Error>, next: Pc)
    requires WorldOk(s) && !next.Deleting?
    requires r.Ok? ==> Inv(r.value) && Evolves(s.db, r.value) && PcOk(r.value, s.deletions, next)
    ensures Keeps(s, Job(s, w, r, next))
  {
    WorldStep(s, Job(s, w, r, next), w);
  }

  lemma RequestedOk(db: Db, a: Action)
    requires Inv(db) && IsRequest(a) && Requested(db, a).Ok?
    ensures Inv(Requested(db, a).value) && Evolves(db, Requested(db, a).value)
  {
    match a
    case AddIncident => InsertOk(db, D.AddIncident(db));
    case CreateTask(i, kind, related) => InsertOk(db, D.CreateTask(db, i, kind, related).value);
    case CreateRun(i) => InsertOk(db, D.CreateRun(db, i).value);
    case TransitionTask(t, to) => TransitionTaskOk(db, t, to);
    case RequestCancel(r) => RequestCancelOk(db, r);
    case FailRun(r) => FailRunOk(db, r);
    case CreatePlan(i, target, wellFormed) => CreatePlanOk(db, i, target, wellFormed);
    case DryRunPlan(p, inspection, namespaces) => DryRunPlanOk(db, p, inspection, namespaces);
    case CreateExecution(p, key) => CreateExecutionOk(db, p, key);
    case FailExecution(x) => FailExecutionOk(db, x);
  }

  lemma ClaimRunKeeps(s: World, w: WorkerId, r: Id)
    requires WorldOk(s) && StepClaimRun(s, w, r).Some?
    ensures Keeps(s, StepClaimRun(s, w, r).value)
  {
    ClaimRunOk(s.db, r);
    WorldStep(s, StepClaimRun(s, w, r).value, w);
  }

  lemma FinishRunKeeps(s: World, w: WorkerId, to: RunStatus)
    requires WorldOk(s) && StepFinishRun(s, w, to).Some?
    ensures Keeps(s, StepFinishRun(s, w, to).value)
  {
    assert PcOk(s.db, s.deletions, s.workers[w]);
    FinishRunOk(s.db, PcOf(s, w).run, to);
    WorldStep(s, StepFinishRun(s, w, to).value, w);
  }

  lemma BeginDiagnosisKeeps(s: World, w: WorkerId, r: Id)
    requires WorldOk(s) && StepBeginDiagnosis(s, w, r).Some?
    ensures Keeps(s, StepBeginDiagnosis(s, w, r).value)
  {
    if D.BeginDiagnosis(s.db, r).Ok? {
      BeginDiagnosisOk(s.db, r);
    }
    JobKeeps(s, w, D.BeginDiagnosis(s.db, r), CollectingFor(r));
  }

  lemma EndDiagnosisKeeps(s: World, w: WorkerId)
    requires WorldOk(s) && StepEndDiagnosis(s, w).Some?
    ensures Keeps(s, StepEndDiagnosis(s, w).value)
  {
    if D.EndDiagnosis(s.db, PcOf(s, w).run).Ok? {
      EndDiagnosisOk(s.db, PcOf(s, w).run);
    }
    JobKeeps(s, w, D.EndDiagnosis(s.db, PcOf(s, w).run), Idle);
  }

  lemma RecordFailureKeeps(s: World, w: WorkerId)
    requires WorldOk(s) && StepRecordFailure(s, w).Some?
    ensures Keeps(s, StepRecordFailure(s, w).value)
  {
    if D.RecordFailure(s.db, PcOf(s, w).execution).Ok? {
      RecordFailureOk(s.db, PcOf(s, w).execution);
    }
    JobKeeps(s, w, D.RecordFailure(s.db, PcOf(s, w).execution), Idle);
  }

  lemma RecordSuccessKeeps(s: World, w: WorkerId)
    requires WorldOk(s) && StepRecordSuccess(s, w).Some?
    ensures Keeps(s, StepRecordSuccess(s, w).value)
  {
    if D.RecordSuccess(s.db, PcOf(s, w).execution).Ok? {
      RecordSuccessOk(s.db, PcOf(s, w).execution);
    }
    JobKeeps(s, w, D.RecordSuccess(s.db, PcOf(s, w).execution), VerifyingRecovery(PcOf(s, w).execution));
  }

  lemma RecordVerificationKeeps(s: World, w: WorkerId, healthy: bool)
    requires WorldOk(s) && StepRecordVerification(s, w, healthy).Some?
    ensures Keeps(s, StepRecordVerification(s, w, healthy).value)
  {
    if D.RecordVerification(s.db, PcOf(s, w).execution, healthy).Ok? {
      RecordVerificationOk(s.db, PcOf(s, w).execution, healthy);
    }
    JobKeeps(s, w, D.RecordVerification(s.db, PcOf(s, w).execution, healthy), Idle);
  }

  lemma ReceiveResolvedKeeps(s: World, w: WorkerId, i: Id)
    requires WorldOk(s) && StepReceiveResolved(s, w, i).Some?
    ensures Keeps(s, StepReceiveResolved(s, w, i).value)
  {
    if D.ReceiveResolved(s.db, i).Ok? {
      ReceiveResolvedOk(s.db, i);
    }
    JobKeeps(s, w, D.ReceiveResolved(s.db, i), VerifyingAlert(i));
  }

  lemma ResolveIncidentKeeps(s: World, w: WorkerId, healthy: bool, found: Option<Id>)
    requires WorldOk(s) && StepResolveIncident(s, w, healthy, found).Some?
    ensures Keeps(s, StepResolveIncident(s, w, healthy, found).value)
  {
    if D.ResolveIncident(s.db, PcOf(s, w).incident, healthy, found).Ok? {
      ResolveIncidentOk(s.db, PcOf(s, w).incident, healthy, found);
    }
    JobKeeps(s, w, D.ResolveIncident(s.db, PcOf(s, w).incident, healthy, found), Idle);
  }

  lemma ApprovePlanKeeps(s: World, p: Id, found: Option<Id>)
    requires WorldOk(s) && StepApprovePlan(s, p, found).Some?
    ensures Keeps(s, StepApprovePlan(s, p, found).value)
  {
    if D.ApprovePlan(s.db, p, found).Ok? {
      ApprovePlanOk(s.db, p, found);
    }
    RequestKeeps(s, D.ApprovePlan(s.db, p, found));
  }

  lemma RejectPlanKeeps(s: World, p: Id, found: Option<Id>)
    requires WorldOk(s) && StepRejectPlan(s, p, found).Some?
    ensures Keeps(s, StepRejectPlan(s, p, found).value)
  {
    if D.RejectPlan(s.db, p, found).Ok? {
      RejectPlanOk(s.db, p, found);
    }
    RequestKeeps(s, D.RejectPlan(s.db, p, found));
  }

  /** Starting an execution that was PREPARED: nobody else deletes for it, and nothing was deleted. */
  lemma BeginKeeps(s: World, w: WorkerId, x: Id)
    requires WorldOk(s) && PcOf(s, w).Idle? && D.BeginExecution(s.db, x).Ok?
    ensures var target := s.db.plans[s.db.executions[x].plan].target;
            Keeps(s, Goto(s.(db := D.BeginExecution(s.db, x).value), w, Deleting(x, target)))
  {
    BeginExecutionOk(s.db, x);
    var db' := D.BeginExecution(s.db, x).value;
    var middle := Goto(s.(db := db'), w, Idle);
    WorldStep(s, middle, w);
    TargetStays(s.db, db', x);
    assert s.db.executions[x].status.Prepared?;
    assert forall v | v in s.workers && s.workers[v].Deleting? :: s.workers[v].execution != x;
    assert !Deleted(s.deletions, x);
  }

  lemma BeginExecutionKeeps(s: World, w: WorkerId, x: Id)
    requires WorldOk(s) && StepBeginExecution(s, w, x).Some?
    ensures Keeps(s, StepBeginExecution(s, w, x).value)
  {
    if D.BeginExecution(s.db, x).Ok? {
      BeginKeeps(s, w, x);
    } else {
      JobKeeps(s, w, D.BeginExecution(s.db, x), Idle);
    }
  }

  lemma DeleteKeeps(s: World, w: WorkerId, raised: bool)
    requires WorldOk(s) && StepDeletePod(s, w, raised).Some?
    ensures Keeps(s, StepDeletePod(s, w, raised).value)
  {
    var s', x := StepDeletePod(s, w, raised).value, PcOf(s, w).execution;
    assert PcOk(s.db, s.deletions, s.workers[w]);
    forall v | v in s'.workers ensures PcOk(s'.db, s'.deletions, s'.workers[v]) {
      if v != w {
        assert PcOk(s.db, s.deletions, s.workers[v]);
      }
    }
  }

  lemma RecoverKeeps(s: World, rs: seq<Id>, xs: seq<Id>, runCutoff: int, executionCutoff: int)
    requires WorldOk(s) && Sweepable(s.db, rs, xs, runCutoff, executionCutoff)
    ensures Keeps(s, s.(db := D.Recover(s.db, rs, xs)))
  {
    RecoverOk(s.db, rs, xs, runCutoff, executionCutoff);
    WorldStep(s, s.(db := D.Recover(s.db, rs, xs)), 0);
  }

  lemma TickOk(db: Db, now: int)
    requires Inv(db)
    ensures Inv(db.(now := now)) && Evolves(db, db.(now := now))
  {
    InsertKeepsLog(db, db.(now := now));
    AccountedSame(db, db.(now := now));
    DiagnosingKept(db, db.(now := now), |db.incidents|);
    RemediatingKept(db, db.(now := now), |db.incidents|);
    PlannedKept(db, db.(now := now), |db.incidents|);
  }

  lemma RequestedKeeps(s: World, a: Action)
    requires WorldOk(s) && IsRequest(a)
    ensures Keeps(s, Request(s, Requested(s.db, a)))
  {
    if Requested(s.db, a).Ok? {
      RequestedOk(s.db, a);
    }
    RequestKeeps(s, Requested(s.db, a));
  }

  lemma TickKeeps(s: World, now: int)
    requires WorldOk(s)
    ensures Keeps(s, s.(db := s.db.(now := now)))
  {
    TickOk(s.db, now);
    WorldStep(s, s.(db := s.db.(now := now)), 0);
  }

  /** Jobs on runs, and alerts. */
  lemma RunJobKeeps(s: World, a: Action)
    requires WorldOk(s) && Step(s, a).Some? && IsRunJob(a)
    ensures Keeps(s, Step(s, a).value)
  {
    match a
    case ClaimRun(w, r) => ClaimRunKeeps(s, w, r);
    case FinishRun(w, to) => FinishRunKeeps(s, w, to);
    case BeginDiagnosis(w, r) => BeginDiagnosisKeeps(s, w, r);
    case EndDiagnosis(w) => EndDiagnosisKeeps(s, w);
    case ReceiveResolved(w, i) => ReceiveResolvedKeeps(s, w, i);
    case ResolveIncident(w, healthy, found) => ResolveIncidentKeeps(s, w, healthy, found);
  }

  /** Jobs on executions. */
  lemma ExecutionJobKeeps(s: World, a: Action)
    requires WorldOk(s) && Step(s, a).Some? && IsExecutionJob(a)
    ensures Keeps(s, Step(s, a).value)
  {
    match a
    case BeginExecution(w, x) => BeginExecutionKeeps(s, w, x);
    case DeletePod(w, raised) => DeleteKeeps(s, w, raised);
    case RecordFailure(w) => RecordFailureKeeps(s, w);
    case RecordSuccess(w) => RecordSuccessKeeps(s, w);
    case RecordVerification(w, healthy) => RecordVerificationKeeps(s, w, healthy);
  }

  predicate IsRunJob(a: Action) {
    a.ClaimRun? || a.FinishRun? || a.BeginDiagnosis? || a.EndDiagnosis? || a.ReceiveResolved? || a.ResolveIncident?
  }

  predicate IsExecutionJob(a: Action) {
    a.BeginExecution? || a.DeletePod? || a.RecordFailure? || a.RecordSuccess? || a.RecordVerification?
  }

  lemma OtherStepKeeps(s: World, a: Action)
    requires WorldOk(s) && Step(s, a).Some? && !IsRunJob(a) && !IsExecutionJob(a) && !IsRequest(a)
    ensures Keeps(s, Step(s, a).value)
  {
    match a
    case ApprovePlan(p, found) => ApprovePlanKeeps(s, p, found);
    case RejectPlan(p, found) => RejectPlanKeeps(s, p, found);
    case Recover(rs, xs, runCutoff, executionCutoff) => RecoverKeeps(s, rs, xs, runCutoff, executionCutoff);
    case Die(w) => WorldStep(s, Goto(s, w, Idle), w);
    case Tick(now) => TickKeeps(s, now);
  }

  lemma StepKeepsWorld(s: World, a: Action)
    requires WorldOk(s) && Step(s, a).Some?
    ensures Keeps(s, Step(s, a).value)
  {
    if IsRunJob(a) {
      RunJobKeeps(s, a);
    } else if IsExecutionJob(a) {
      ExecutionJobKeeps(s, a);
    } else if IsRequest(a) {
      RequestedKeeps(s, a);
    } else {
      OtherStepKeeps(s, a);
    }
  }
}
