/**
 * What remediation rests on and how it ends: no incident is diagnosed, planned for or remediated without a
 * run that completed, and what a job records for the cluster's answer.
 */
module RemediationOutcomes {
  import opened Common
  import opened Domain
  import opened OpsDatabase
  import opened OpsEffects
  import opened OpsInvariants
  import opened Remediation
  import opened RemediationInvariants
  import opened RemediationGuarantees
  import D = OpsDatabase

  // ---- Diagnosed incidents have a completed run ----

  /** The statuses an incident only has after a diagnosis. */
  predicate AfterDiagnosis(s: IncidentStatus) {
    s in {Diagnosed, PlanReady, IncidentStatus.AwaitingApproval, Remediating}
  }

  ghost predicate HasCompletedRun(db: Db, i: Id) {
    exists r | 0 <= r < |db.runs| :: db.runs[r].incident == i && db.runs[r].status == Completed
  }

  ghost predicate HasAnyPlan(db: Db, i: Id) { exists p | 0 <= p < |db.plans| :: db.plans[p].incident == i }

  ghost predicate Grounded(db: Db) {
    && (forall i: Id | i < |db.incidents| && AfterDiagnosis(db.incidents[i]) :: HasCompletedRun(db, i))
    && (forall p: Id | p < |db.plans| :: HasCompletedRun(db, db.plans[p].incident))
  }

  /** An incident enters these statuses with a completed run, from one of them, or because of a plan it has. */
  ghost predicate EntersGrounded(db: Db, db': Db) {
    && (forall i: Id | i < |db'.incidents| && AfterDiagnosis(db'.incidents[i]) ::
          HasCompletedRun(db', i) || (i < |db.incidents| && (AfterDiagnosis(db.incidents[i]) || HasAnyPlan(db, i))))
    && (forall p: Id | p < |db'.plans| ::
          || (p < |db.plans| && db'.plans[p].incident == db.plans[p].incident)
          || (db'.plans[p].incident < |db.incidents| && AfterDiagnosis(db.incidents[db'.plans[p].incident])))
  }

  lemma CompletedRunStays(db: Db, db': Db, i: Id)
    requires RefsOk(db) && Evolves(db, db') && HasCompletedRun(db, i)
    ensures HasCompletedRun(db', i)
  {
    var r :| 0 <= r < |db.runs| && db.runs[r].incident == i && db.runs[r].status == Completed;
    assert TerminalRun(db.runs[r].status) && db'.runs[r].incident == i;
  }

  lemma GroundStays(db: Db, db': Db)
    requires RefsOk(db) && Evolves(db, db') && Grounded(db) && EntersGrounded(db, db')
    ensures Grounded(db')
  {
    forall i: Id | i < |db'.incidents| && AfterDiagnosis(db'.incidents[i]) ensures HasCompletedRun(db', i) {
      if !HasCompletedRun(db', i) {
        if HasCompletedRun(db, i) {
          CompletedRunStays(db, db', i);
        }
      }
    }
    forall p: Id | p < |db'.plans| ensures HasCompletedRun(db', db'.plans[p].incident) {
      CompletedRunStays(db, db', db'.plans[p].incident);
    }
  }

  lemma FinishRunGrounded(db: Db, r: Id, to: RunStatus)
    requires RefsOk(db) && r < |db.runs|
    ensures EntersGrounded(db, D.FinishRun(db, r, to))
  {
    FinishRunEffect(db, r, to);
    var db', i := D.FinishRun(db, r, to), db.runs[r].incident;
    if db'.incidents[i] != db.incidents[i] && to == Completed {
      assert db'.runs[r].incident == i && db'.runs[r].status == Completed;
    }
  }

  lemma EndDiagnosisGrounded(db: Db, r: Id)
    requires RefsOk(db) && D.EndDiagnosis(db, r).Ok?
    ensures EntersGrounded(db, D.EndDiagnosis(db, r).value)
  {
    EndDiagnosisEffect(db, r);
    var db' := D.EndDiagnosis(db, r).value;
    assert db'.runs[r].incident == db.runs[r].incident && db'.runs[r].status == Completed;
  }

  lemma DryRunPlanGrounded(db: Db, p: Id, inspection: Inspection, namespaces: set<string>)
    requires RefsOk(db) && D.DryRunPlan(db, p, inspection, namespaces).Ok?
    ensures EntersGrounded(db, D.DryRunPlan(db, p, inspection, namespaces).value)
  {
    DryRunPlanEffect(db, p, inspection, namespaces);
    assert HasAnyPlan(db, db.plans[p].incident);
  }

  lemma RejectPlanGrounded(db: Db, p: Id, task: Option<Id>)
    requires RefsOk(db) && (task.Some? ==> task.value < |db.tasks|) && D.RejectPlan(db, p, task).Ok?
    ensures EntersGrounded(db, D.RejectPlan(db, p, task).value)
  {
    RejectPlanEffect(db, p, task);
    assert HasAnyPlan(db, db.plans[p].incident);
  }

  lemma ApprovePlanGrounded(db: Db, p: Id, task: Option<Id>)
    requires RefsOk(db) && (task.Some? ==> task.value < |db.tasks|) && D.ApprovePlan(db, p, task).Ok?
    ensures EntersGrounded(db, D.ApprovePlan(db, p, task).value)
  {
    ApprovePlanEffect(db, p, task);
  }

  /** Transactions on a run that end no diagnosis. */
  lemma RunGrounded(db: Db, r: Id)
    requires RefsOk(db) && r < |db.runs|
    ensures EntersGrounded(db, D.ClaimRun(db, r)) && EntersGrounded(db, D.RequestCancel(db, r).value)
    ensures EntersGrounded(db, D.FailRun(db, r).value)
    ensures D.BeginDiagnosis(db, r).Ok? ==> EntersGrounded(db, D.BeginDiagnosis(db, r).value)
  {
    ClaimRunEffect(db, r);
    RequestCancelEffect(db, r);
    FailRunEffect(db, r);
    BeginDiagnosisEffect(db, r);
  }

  /** Transactions on an execution. */
  lemma ExecutionGrounded(db: Db, x: Id)
    requires RefsOk(db) && x < |db.executions|
    ensures D.BeginExecution(db, x).Ok? ==> EntersGrounded(db, D.BeginExecution(db, x).value)
    ensures D.RecordFailure(db, x).Ok? ==> EntersGrounded(db, D.RecordFailure(db, x).value)
    ensures D.RecordSuccess(db, x).Ok? ==> EntersGrounded(db, D.RecordSuccess(db, x).value)
    ensures EntersGrounded(db, D.FailExecution(db, x).value)
  {
    BeginExecutionEffect(db, x);
    RecordFailureEffect(db, x);
    RecordSuccessEffect(db, x);
    FailExecutionEffect(db, x);
  }

  lemma VerificationGrounded(db: Db, x: Id, healthy: bool)
    requires RefsOk(db) && x < |db.executions| && D.RecordVerification(db, x, healthy).Ok?
    ensures EntersGrounded(db, D.RecordVerification(db, x, healthy).value)
  {
    RecordVerificationEffect(db, x, healthy);
  }

  lemma AlertGrounded(db: Db, i: Id, healthy: bool, task: Option<Id>)
    requires i < |db.incidents| && (task.Some? ==> task.value < |db.tasks|)
    ensures D.ReceiveResolved(db, i).Ok? ==> EntersGrounded(db, D.ReceiveResolved(db, i).value)
    ensures D.ResolveIncident(db, i, healthy, task).Ok? ==> EntersGrounded(db, D.ResolveIncident(db, i, healthy, task).value)
  {
    ReceiveResolvedEffect(db, i);
    ResolveIncidentEffect(db, i, healthy, task);
  }

  lemma SweepGrounded(db: Db, rs: seq<Id>, xs: seq<Id>)
    requires RefsOk(db) && Below(rs, |db.runs|) && Below(xs, |db.executions|) && Different(rs)
    ensures EntersGrounded(db, D.Recover(db, rs, xs))
  {
    SweepEffect(db, rs, xs);
  }

  lemma CreatePlanGrounded(db: Db, i: Id, target: PodTarget, wellFormed: bool)
    requires D.CreatePlan(db, i, target, wellFormed).Ok?
    ensures EntersGrounded(db, D.CreatePlan(db, i, target, wellFormed).value)
  {
    CreatePlanEffect(db, i, target, wellFormed);
  }

  lemma RequestGrounded(db: Db, a: Action)
    requires RefsOk(db) && IsRequest(a) && Requested(db, a).Ok?
    ensures EntersGrounded(db, Requested(db, a).value)
  {
    match a
    case AddIncident =>
    case CreateTask(i, kind, related) =>
    case TransitionTask(t, to) =>
    case CreateRun(i) =>
    case RequestCancel(r) => RunGrounded(db, r);
    case FailRun(r) => RunGrounded(db, r);
    case CreatePlan(i, target, wellFormed) => CreatePlanGrounded(db, i, target, wellFormed);
    case DryRunPlan(p, inspection, namespaces) => DryRunPlanGrounded(db, p, inspection, namespaces);
    case CreateExecution(p, key) => CreateExecutionEffect(db, p, key);
    case FailExecution(x) =>
      FailExecutionEffect(db, x);
      ExecutionGrounded(db, x);
  }

  lemma Unchanged(db: Db)
    ensures EntersGrounded(db, db)
  {
  }

  lemma RunJobGrounded(s: World, a: Action)
    requires WorldOk(s) && IsRunJob(a) && Step(s, a).Some?
    ensures EntersGrounded(s.db, Step(s, a).value.db)
  {
    Unchanged(s.db);
    match a
    case ClaimRun(w, r) => RunGrounded(s.db, r);
    case FinishRun(w, to) => FinishRunGrounded(s.db, PcOf(s, w).run, to);
    case BeginDiagnosis(w, r) =>
      BeginDiagnosisEffect(s.db, r);
      if r < |s.db.runs| {
        RunGrounded(s.db, r);
      }
    case EndDiagnosis(w) =>
      if D.EndDiagnosis(s.db, PcOf(s, w).run).Ok? {
        EndDiagnosisGrounded(s.db, PcOf(s, w).run);
      }
    case ReceiveResolved(w, i) => AlertGrounded(s.db, i, false, None);
    case ResolveIncident(w, healthy, found) => AlertGrounded(s.db, PcOf(s, w).incident, healthy, found);
  }

  lemma ExecutionJobGrounded(s: World, a: Action)
    requires WorldOk(s) && IsExecutionJob(a) && Step(s, a).Some?
    ensures EntersGrounded(s.db, Step(s, a).value.db)
  {
    Unchanged(s.db);
    match a
    case BeginExecution(w, x) =>
      BeginExecutionEffect(s.db, x);
      if x < |s.db.executions| {
        ExecutionGrounded(s.db, x);
      }
    case DeletePod(w, raised) =>
    case RecordFailure(w) => ExecutionGrounded(s.db, PcOf(s, w).execution);
    case RecordSuccess(w) => ExecutionGrounded(s.db, PcOf(s, w).execution);
    case RecordVerification(w, healthy) =>
      if D.RecordVerification(s.db, PcOf(s, w).execution, healthy).Ok? {
        VerificationGrounded(s.db, PcOf(s, w).execution, healthy);
      }
  }

  lemma OtherGrounded(s: World, a: Action)
    requires WorldOk(s) && Step(s, a).Some? && !IsRunJob(a) && !IsExecutionJob(a) && !IsRequest(a)
    ensures EntersGrounded(s.db, Step(s, a).value.db)
  {
    Unchanged(s.db);
    match a
    case ApprovePlan(p, found) =>
      if D.ApprovePlan(s.db, p, found).Ok? {
        ApprovePlanGrounded(s.db, p, found);
      }
    case RejectPlan(p, found) =>
      if D.RejectPlan(s.db, p, found).Ok? {
        RejectPlanGrounded(s.db, p, found);
      }
    case Recover(rs, xs, runCutoff, executionCutoff) => SweepGrounded(s.db, rs, xs);
    case Die(w) =>
    case Tick(now) =>
  }

  lemma StepKeepsGround(s: World, a: Action)
    requires WorldOk(s) && Grounded(s.db) && Step(s, a).Some?
    ensures Grounded(Step(s, a).value.db)
  {
    if IsRunJob(a) {
      RunJobGrounded(s, a);
    } else if IsExecutionJob(a) {
      ExecutionJobGrounded(s, a);
    } else if IsRequest(a) {
      Unchanged(s.db);
      if Requested(s.db, a).Ok? {
        RequestGrounded(s.db, a);
      }
    } else {
      OtherGrounded(s, a);
    }
    StepKeepsWorld(s, a);
    GroundStays(s.db, Step(s, a).value.db);
  }

  lemma {:induction false} RunKeepsGround(s: World, trace: seq<Action>)
    requires WorldOk(s) && Grounded(s.db) && Run(s, trace).Some?
    ensures Grounded(Run(s, trace).value.db)
    decreases |trace|
  {
    if trace != [] {
      StepKeepsGround(s, trace[0]);
      StepKeepsWorld(s, trace[0]);
      RunKeepsGround(Step(s, trace[0]).value, trace[1..]);
    }
  }

  /** An incident that is DIAGNOSED, or planned for, or remediated, has a run that COMPLETED; so has every plan's. */
  lemma DiagnosedByACompletedRun(s: World, i: Id)
    requires Reachable(s) && i < |s.db.incidents|
    requires s.db.incidents[i] in {Diagnosed, PlanReady, IncidentStatus.AwaitingApproval, Remediating}
             || exists p | 0 <= p < |s.db.plans| :: s.db.plans[p].incident == i
    ensures exists r | 0 <= r < |s.db.runs| :: s.db.runs[r].incident == i && s.db.runs[r].status == Completed
  {
    var init, trace :| Empty(init) && Run(init, trace) == Some(s);
    EmptyWorldOk(init);
    RunKeepsGround(init, trace);
    assert HasCompletedRun(s.db, i);
  }

  // ---- What is recorded for a deletion ----

  /**
   * A worker whose deletion returned records it and goes on to verify exactly when its execution was not
   * swept or failed meanwhile, no other execution of the plan has settled, and the incident has not been
   * taken to VERIFYING or beyond.
   */
  lemma ReturnedDeletionIsRecordedIff(s: World, w: WorkerId)
    requires Reachable(s) && RefsOk(s.db) && PcOf(s, w).DeleteReturned?
    ensures PcOf(s, w).execution < |s.db.executions| && Step(s, Action.RecordSuccess(w)).Some?
    ensures var x, s' := PcOf(s, w).execution, Step(s, Action.RecordSuccess(w)).value;
            && (PcOf(s', w) == VerifyingRecovery(x) <==>
                  && s.db.executions[x].status.Running?
                  && (forall y | 0 <= y < |s.db.executions| && s.db.executions[y].plan == s.db.executions[x].plan ::
                        !Settled(s.db.executions[y].status))
                  && s.db.incidents[IncidentOf(s.db, x)] !in {Verifying, Resolved, Closed})
            && (PcOf(s', w) == VerifyingRecovery(x) ==>
                  && s'.db.executions == s.db.executions[x := s.db.executions[x].(status := Succeeded)]
                  && s'.db.plans[s.db.executions[x].plan].status == Executed
                  && s'.db.incidents == s.db.incidents[IncidentOf(s.db, x) := Verifying])
            && (PcOf(s', w) != VerifyingRecovery(x) ==> PcOf(s', w).Idle? && s'.db == s.db)
  {
    ReachableWorldOk(s);
    assert PcOk(s.db, s.deletions, s.workers[w]);
    var x := PcOf(s, w).execution;
    RecordSuccessEffect(s.db, x);
    var p := s.db.executions[x].plan;
    assert s.db.plans[p].status.Executable? <==> !HasOutcome(s.db, p);
  }

  // ---- A deletion that is not recorded ----

  /** A set of worlds closed under steps; the run below only uses this of reachability. */
  ghost predicate ClosedWorlds(reach: World -> bool) {
    && (forall s | reach(s) :: RefsOk(s.db))
    && (forall s, a | reach(s) && RefsOk(s.db) && Step(s, a).Some? :: reach(Step(s, a).value))
  }

  lemma Then(reach: World -> bool, s: World, a: Action) returns (s': World)
    requires ClosedWorlds(reach) && reach(s) && RefsOk(s.db) && Step(s, a).Some?
    ensures s' == Step(s, a).value && reach(s') && RefsOk(s'.db)
  {
    s' := Step(s, a).value;
  }

  const POD := PodTarget("n", "p", "u", None)

  const UNHEALTHY := Inspection(true, "u", Workload("Deployment", "d"), true)

  /** One incident with a queued run. */
  lemma Submitted(reach: World -> bool) returns (s: World)
    requires ClosedWorlds(reach) && reach(NOTHING)
    ensures reach(s) && RefsOk(s.db) && s.db.incidents == [Open] && s.db.runs == [RunRow(0, None, Queued)]
    ensures s.db.plans == [] && s.db.executions == [] && s.db.tasks == [] && s.deletions == [] && s.workers == map[]
  {
    var a := Then(reach, NOTHING, Action.AddIncident);
    assert a.db.incidents == [Open];
    s := Then(reach, a, Action.CreateRun(0));
    assert s.db.runs == [RunRow(0, None, Queued)];
  }

  lemma Began(reach: World -> bool, s: World) returns (s': World)
    requires ClosedWorlds(reach) && reach(s) && RefsOk(s.db) && PcOf(s, 0).Idle?
    requires s.db.incidents == [Open] && s.db.runs == [RunRow(0, None, Queued)]
    ensures reach(s') && RefsOk(s'.db) && PcOf(s', 0) == CollectingFor(0) && |s'.db.runs| == 1
    ensures s'.db.incidents == [IncidentStatus.Diagnosing]
    ensures s'.db.runs[0].incident == 0 && s'.db.runs[0].status == Collecting && s'.workers.Keys == s.workers.Keys + {0}
    ensures s'.db.plans == s.db.plans && s'.db.executions == s.db.executions && s'.db.tasks == s.db.tasks
    ensures s'.deletions == s.deletions
  {
    BeginDiagnosisEffect(s.db, 0);
    s' := Then(reach, s, Action.BeginDiagnosis(0, 0));
  }

  lemma Ended(reach: World -> bool, s: World) returns (s': World)
    requires ClosedWorlds(reach) && reach(s) && RefsOk(s.db) && PcOf(s, 0) == CollectingFor(0) && |s.db.runs| == 1
    requires s.db.incidents == [IncidentStatus.Diagnosing]
    requires s.db.runs[0].incident == 0 && s.db.runs[0].status == Collecting
    ensures reach(s') && RefsOk(s'.db) && s'.db.incidents == [Diagnosed] && s'.workers == s.workers[0 := Idle]
    ensures s'.db.plans == s.db.plans && s'.db.executions == s.db.executions && s'.db.tasks == s.db.tasks
    ensures s'.deletions == s.deletions
  {
    EndDiagnosisEffect(s.db, 0);
    s' := Then(reach, s, Action.EndDiagnosis(0));
  }

  lemma PlanMade(reach: World -> bool, s: World) returns (s': World)
    requires ClosedWorlds(reach) && reach(s) && RefsOk(s.db) && s.db.incidents == [Diagnosed] && s.db.plans == []
    ensures reach(s') && RefsOk(s'.db) && s'.db.incidents == [PlanReady] && s'.db.plans == [PlanRow(0, POD, None, Draft)]
    ensures s'.db.executions == s.db.executions && s'.db.tasks == s.db.tasks
    ensures s'.deletions == s.deletions && s'.workers == s.workers
  {
    CreatePlanEffect(s.db, 0, POD, true);
    s' := Then(reach, s, Action.CreatePlan(0, POD, true));
    assert s'.db.plans == [PlanRow(0, POD, None, Draft)];
  }

  lemma PlanTried(reach: World -> bool, s: World) returns (s': World)
    requires ClosedWorlds(reach) && reach(s) && RefsOk(s.db) && s.db.incidents == [PlanReady] && s.db.tasks == []
    requires s.db.plans == [PlanRow(0, POD, None, Draft)]
    ensures reach(s') && RefsOk(s'.db) && s'.db.incidents == [IncidentStatus.AwaitingApproval] && |s'.db.plans| == 1
    ensures s'.db.plans[0].incident == 0 && s'.db.plans[0].status == PlanStatus.AwaitingApproval
    ensures s'.db.tasks == [TaskRow(0, Approval, Some(APlan(0)), Todo)]
    ensures s'.db.executions == s.db.executions && s'.deletions == s.deletions && s'.workers == s.workers
  {
    DryRunPlanEffect(s.db, 0, UNHEALTHY, {"n"});
    assert |"n"| == 1 && |"kube-system"| == 11 && |"kube-public"| == 11 && |"kube-node-lease"| == 15;
    s' := Then(reach, s, Action.DryRunPlan(0, UNHEALTHY, {"n"}));
    assert s'.db.tasks == [TaskRow(0, Approval, Some(APlan(0)), Todo)];
  }

  lemma PlanApproved(reach: World -> bool, s: World) returns (s': World)
    requires ClosedWorlds(reach) && reach(s) && RefsOk(s.db) && |s.db.plans| == 1
    requires s.db.plans[0].incident == 0 && s.db.plans[0].status == PlanStatus.AwaitingApproval
    requires s.db.tasks == [TaskRow(0, Approval, Some(APlan(0)), Todo)]
    ensures reach(s') && RefsOk(s'.db) && s'.db.incidents == s.db.incidents && |s'.db.plans| == 1
    ensures s'.db.plans[0].incident == 0 && s'.db.plans[0].status == Executable
    ensures s'.db.executions == s.db.executions && s'.deletions == s.deletions && s'.workers == s.workers
  {
    ApprovePlanEffect(s.db, 0, Some(0));
    s' := Then(reach, s, Action.ApprovePlan(0, Some(0)));
  }

  lemma ExecutionMade(reach: World -> bool, s: World) returns (s': World)
    requires ClosedWorlds(reach) && reach(s) && RefsOk(s.db) && |s.db.plans| == 1 && s.db.executions == []
    requires s.db.plans[0].incident == 0 && s.db.plans[0].status == Executable
    ensures reach(s') && RefsOk(s'.db) && s'.db.incidents == s.db.incidents && s'.db.plans == s.db.plans
    ensures s'.db.executions == [ExecutionRow(0, "k", None, Prepared)]
    ensures s'.deletions == s.deletions && s'.workers == s.workers
  {
    CreateExecutionEffect(s.db, 0, "k");
    s' := Then(reach, s, Action.CreateExecution(0, "k"));
    assert s'.db.executions == [ExecutionRow(0, "k", None, Prepared)];
  }

  lemma ExecutionBegun(reach: World -> bool, s: World) returns (s': World)
    requires ClosedWorlds(reach) && reach(s) && RefsOk(s.db) && |s.db.plans| == 1 && PcOf(s, 0).Idle?
    requires s.db.plans[0].incident == 0 && s.db.incidents == [IncidentStatus.AwaitingApproval]
    requires s.db.executions == [ExecutionRow(0, "k", None, Prepared)]
    ensures reach(s') && RefsOk(s'.db) && s'.db.incidents == [Remediating] && s'.db.plans == s.db.plans
    ensures |s'.db.executions| == 1 && s'.db.executions[0].plan == 0
    ensures s'.db.executions[0].status == ExecutionStatus.Running
    ensures PcOf(s', 0).Deleting? && PcOf(s', 0).execution == 0 && s'.deletions == s.deletions
    ensures s'.workers.Keys == s.workers.Keys + {0}
  {
    BeginExecutionEffect(s.db, 0);
    s' := Then(reach, s, Action.BeginExecution(0, 0));
  }

  /** The pod is deleted, and an alert reports the recovery before that is recorded. */
  lemma DeletedAndReported(reach: World -> bool, s: World) returns (s': World)
    requires ClosedWorlds(reach) && reach(s) && RefsOk(s.db) && PcOf(s, 0).Deleting? && PcOf(s, 0).execution == 0
    requires s.db.incidents == [Remediating] && s.workers.Keys == {0}
    ensures reach(s') && RefsOk(s'.db) && s'.db.incidents == [Verifying] && PcOf(s', 0) == DeleteReturned(0)
    ensures s'.db.executions == s.db.executions && s'.db.plans == s.db.plans && |s'.deletions| == |s.deletions| + 1
  {
    var deleted := Then(reach, s, Action.DeletePod(0, false));
    ReceiveResolvedEffect(deleted.db, 0);
    s' := Then(reach, deleted, Action.ReceiveResolved(1, 0));
  }

  lemma Unrecorded(reach: World -> bool) returns (s: World)
    requires ClosedWorlds(reach) && reach(NOTHING)
    ensures reach(s) && RefsOk(s.db) && s.db.incidents == [Verifying] && PcOf(s, 0) == DeleteReturned(0)
    ensures |s.deletions| == 1 && |s.db.executions| == 1 && s.db.executions[0].status == ExecutionStatus.Running
    ensures s.db.executions[0].plan == 0 && |s.db.plans| == 1 && s.db.plans[0].incident == 0
  {
    s := Submitted(reach);
    s := Began(reach, s);
    s := Ended(reach, s);
    s := PlanMade(reach, s);
    s := PlanTried(reach, s);
    s := PlanApproved(reach, s);
    s := ExecutionMade(reach, s);
    s := ExecutionBegun(reach, s);
    s := DeletedAndReported(reach, s);
  }

  /**
   * Such a world: an alert reports the recovery while the pod is being deleted. The deletion returned and
   * is never recorded, and its execution stays RUNNING until a sweep fails it.
   */
  lemma DeletionCanGoUnrecorded() returns (s: World)
    ensures Reachable(s) && PcOf(s, 0) == DeleteReturned(0) && |s.deletions| == 1 && RefsOk(s.db)
    ensures Step(s, Action.RecordSuccess(0)).Some?
    ensures var s' := Step(s, Action.RecordSuccess(0)).value;
            PcOf(s', 0).Idle? && |s'.db.executions| == 1 && s'.db.executions[0].status == ExecutionStatus.Running
  {
    assert Run(NOTHING, []) == Some(NOTHING);
    var reach := (x: World) => Reachable(x);
    forall x | reach(x) ensures RefsOk(x.db) {
      ReachableWorldOk(x);
    }
    forall x, a | reach(x) && RefsOk(x.db) && Step(x, a).Some? ensures reach(Step(x, a).value) {
      ReachableStep(x, a);
    }
    s := Unrecorded(reach);
    NotRecorded(s);
  }

  lemma NotRecorded(s: World)
    requires RefsOk(s.db) && PcOf(s, 0) == DeleteReturned(0) && s.db.incidents == [Verifying] && |s.db.executions| == 1
    requires s.db.executions[0].plan == 0 && |s.db.plans| == 1 && s.db.plans[0].incident == 0
    ensures Step(s, Action.RecordSuccess(0)).Some?
    ensures var s' := Step(s, Action.RecordSuccess(0)).value; PcOf(s', 0).Idle? && s'.db == s.db
  {
    RecordSuccessEffect(s.db, 0);
  }
}
