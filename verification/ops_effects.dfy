/**
 * What each transaction of OpsDatabase does, row by row: when it is accepted, and the tables afterwards
 * (all but the log, which RemediationGuarantees.EveryWriteIsAnEdge accounts for).
 */
module OpsEffects {
  import opened Common
  import opened Domain
  import opened OpsDatabase
  import D = OpsDatabase

  /** A task about `related` is still open. */
  predicate OpenFor(db: Db, related: Entity) {
    exists t | 0 <= t < |db.tasks| ::
      db.tasks[t].related == Some(related) && db.tasks[t].status in {Todo, InProgress, Blocked}
  }

  /** The incident moves; nobody else's does. */
  function Moved(db: Db, i: Id, to: IncidentStatus): seq<IncidentStatus>
    requires i < |db.incidents|
  {
    db.incidents[i := to]
  }

  function Filed(db: Db, i: Id, kind: TaskType, related: Entity): seq<TaskRow> {
    db.tasks + [TaskRow(i, kind, Some(related), Todo)]
  }

  // ---- Runs ----

  /** Only a queued run starts, and with it an incident nobody diagnoses. */
  lemma ClaimRunEffect(db: Db, r: Id)
    requires RefsOk(db) && r < |db.runs|
    ensures var db', run, i := D.ClaimRun(db, r), db.runs[r], db.runs[r].incident;
            if run.status.Queued? then
              db' == db.(runs := db.runs[r := run.(status := RunStatus.Running, startedAt := Some(db.now))],
                         incidents := if db.incidents[i] in {Open, IncidentStatus.Failed, Diagnosed}
                                      then Moved(db, i, IncidentStatus.Diagnosing) else db.incidents,
                         log := db'.log)
            else db' == db
  {
    assert db.incidents[db.runs[r].incident := db.incidents[db.runs[r].incident]] == db.incidents;
  }

  /**
   * A run that is not finished gets its status. Its incident, when DIAGNOSING, becomes DIAGNOSED if the
   * run completed and FAILED if not. Handing over to a human leaves an open task for the run.
   */
  lemma FinishRunEffect(db: Db, r: Id, to: RunStatus)
    requires RefsOk(db) && r < |db.runs|
    ensures var db', run, i := D.FinishRun(db, r, to), db.runs[r], db.runs[r].incident;
            if run.status in {Completed, AwaitingHuman, Stopped, RunStatus.Failed, RunStatus.Cancelled} then db' == db
            else
              && db' == db.(runs := db.runs[r := run.(status := to)], incidents := db'.incidents, tasks := db'.tasks,
                            log := db'.log)
              && db'.incidents == (if !db.incidents[i].Diagnosing? then db.incidents
                                   else Moved(db, i, if to == Completed then Diagnosed else IncidentStatus.Failed))
              && (db'.tasks == db.tasks || (to == AwaitingHuman && db'.tasks == Filed(db, i, ManualCheck, ARun(r))))
              && (to == AwaitingHuman ==>
                    exists t | 0 <= t < |db'.tasks| ::
                      && db'.tasks[t].incident == i && db'.tasks[t].related == Some(ARun(r))
                      && db'.tasks[t].status in {Todo, InProgress, Blocked})
  {
    var db' := D.FinishRun(db, r, to);
    if !TerminalRun(db.runs[r].status) && to == AwaitingHuman {
      if db'.tasks != db.tasks {
        assert db'.tasks[|db.tasks|] == TaskRow(db.runs[r].incident, ManualCheck, Some(ARun(r)), Todo);
      }
    }
  }

  /** Only a queued run is cancelled at once. */
  lemma RequestCancelEffect(db: Db, r: Id)
    ensures var result := D.RequestCancel(db, r);
            && (result.Ok? <==> r < |db.runs|)
            && (result.Ok? ==>
                  result.value == (if db.runs[r].status != Queued then db
                                   else db.(runs := db.runs[r := db.runs[r].(status := RunStatus.Cancelled)],
                                            log := result.value.log)))
  {
  }

  lemma BeginDiagnosisEffect(db: Db, r: Id)
    requires RefsOk(db)
    ensures var result := D.BeginDiagnosis(db, r);
            && (result.Ok? <==> r < |db.runs| && db.runs[r].status == Queued)
            && (result.Ok? ==>
                  var i := db.runs[r].incident;
                  result.value == db.(
                    runs := db.runs[r := db.runs[r].(status := Collecting, startedAt := Some(db.now))],
                    incidents := if db.incidents[i] in {Open, IncidentStatus.Failed}
                                 then Moved(db, i, IncidentStatus.Diagnosing) else db.incidents,
                    log := result.value.log))
  {
  }

  lemma EndDiagnosisEffect(db: Db, r: Id)
    requires RefsOk(db)
    ensures var result := D.EndDiagnosis(db, r);
            && (result.Ok? <==> r < |db.runs| && db.runs[r].status == Collecting)
            && (result.Ok? ==>
                  var i := db.runs[r].incident;
                  result.value == db.(
                    runs := db.runs[r := db.runs[r].(status := Completed)],
                    incidents := if db.incidents[i].Diagnosing? then Moved(db, i, Diagnosed) else db.incidents,
                    log := result.value.log))
  {
  }

  /** A job that raised: the run fails unless it is finished, the incident fails if it is DIAGNOSING. */
  lemma FailRunEffect(db: Db, r: Id)
    requires RefsOk(db)
    ensures var result := D.FailRun(db, r);
            && (result.Ok? <==> r < |db.runs|)
            && (result.Ok? ==>
                  var i := db.runs[r].incident;
                  result.value == db.(
                    runs := if db.runs[r].status in {Queued, RunStatus.Running, Collecting, RunStatus.Diagnosing}
                            then db.runs[r := db.runs[r].(status := RunStatus.Failed)] else db.runs,
                    incidents := if db.incidents[i].Diagnosing? then Moved(db, i, IncidentStatus.Failed) else db.incidents,
                    log := result.value.log))
  {
  }

  // ---- Plans ----

  lemma CreatePlanEffect(db: Db, i: Id, target: PodTarget, wellFormed: bool)
    ensures var result := D.CreatePlan(db, i, target, wellFormed);
            && (result.Ok? <==> wellFormed && i < |db.incidents| && db.incidents[i].Diagnosed?)
            && (result.Ok? ==>
                  result.value == db.(plans := db.plans + [PlanRow(i, target, None, Draft)],
                                      incidents := Moved(db, i, PlanReady), log := result.value.log))
  {
  }

  /** Every reason for a denial. */
  predicate Denied(target: PodTarget, inspection: Inspection, namespaces: set<string>) {
    || target.namespace !in namespaces
    || target.namespace in {"kube-system", "kube-public", "kube-node-lease"}
    || !inspection.exists_
    || inspection.uid != target.podUid
    || inspection.workload.kind !in {"Deployment", "StatefulSet"}
    || !inspection.abnormal
  }

  /**
   * A draft whose incident is PLAN_READY, and no other plan, passes the dry run to AWAITING_APPROVAL, with
   * the workload filled in and an approval task; a denied one is CANCELLED and its incident DIAGNOSED again.
   */
  lemma DryRunPlanEffect(db: Db, p: Id, inspection: Inspection, namespaces: set<string>)
    requires RefsOk(db)
    ensures var result := D.DryRunPlan(db, p, inspection, namespaces);
            && (result.Ok? <==>
                  && p < |db.plans| && db.plans[p].status.Draft?
                  && var incident := db.incidents[db.plans[p].incident];
                     if Denied(db.plans[p].target, inspection, namespaces)
                     then incident in {IncidentStatus.Diagnosing, PlanReady, IncidentStatus.AwaitingApproval}
                     else incident.PlanReady?)
            && (result.Ok? ==>
                  var plan, i, row := db.plans[p], db.plans[p].incident, result.value.plans[p];
                  if Denied(plan.target, inspection, namespaces) then
                    && result.value == db.(plans := db.plans[p := row], incidents := Moved(db, i, Diagnosed),
                                           log := result.value.log)
                    && row == plan.(status := PlanStatus.Cancelled, dryRun := row.dryRun)
                    && row.dryRun.Some? && !row.dryRun.value.allowed
                  else
                    && result.value == db.(plans := db.plans[p := row],
                                           incidents := Moved(db, i, IncidentStatus.AwaitingApproval),
                                           tasks := Filed(db, i, Approval, APlan(p)), log := result.value.log)
                    && row == plan.(status := PlanStatus.AwaitingApproval,
                                    target := plan.target.(workload := Some(inspection.workload)),
                                    dryRun := Some(DryRun(true, plan.target, namespaces, Some(inspection)))))
  {
  }

  /** Approval closes the task it found. */
  lemma ApprovePlanEffect(db: Db, p: Id, task: Option<Id>)
    requires task.Some? ==> task.value < |db.tasks|
    ensures var result := D.ApprovePlan(db, p, task);
            && (result.Ok? <==>
                  && p < |db.plans| && db.plans[p].status.AwaitingApproval?
                  && (task.Some? ==> db.tasks[task.value].status in {Todo, InProgress}))
            && (result.Ok? ==>
                  result.value == db.(
                    plans := db.plans[p := db.plans[p].(status := Executable)],
                    tasks := if task.None? then db.tasks
                             else db.tasks[task.value := db.tasks[task.value].(status := Done)],
                    log := result.value.log))
  {
  }

  lemma RejectPlanEffect(db: Db, p: Id, task: Option<Id>)
    requires RefsOk(db) && (task.Some? ==> task.value < |db.tasks|)
    ensures var result := D.RejectPlan(db, p, task);
            && (result.Ok? <==>
                  && p < |db.plans| && db.plans[p].status.AwaitingApproval?
                  && db.incidents[db.plans[p].incident] in
                       {IncidentStatus.Diagnosing, PlanReady, IncidentStatus.AwaitingApproval}
                  && (task.Some? ==> db.tasks[task.value].status in {Todo, InProgress, Blocked}))
            && (result.Ok? ==>
                  result.value == db.(
                    plans := db.plans[p := db.plans[p].(status := Rejected)],
                    incidents := Moved(db, db.plans[p].incident, Diagnosed),
                    tasks := if task.None? then db.tasks
                             else db.tasks[task.value := db.tasks[task.value].(status := TaskStatus.Cancelled)],
                    log := result.value.log))
  {
  }

  // ---- Executions ----

  lemma CreateExecutionEffect(db: Db, p: Id, key: string)
    ensures var result := D.CreateExecution(db, p, key);
            && (result.Ok? <==>
                  && p < |db.plans| && db.plans[p].status.Executable?
                  && forall x | 0 <= x < |db.executions| :: db.executions[x].key != key)
            && (result.Ok? ==>
                  result.value == db.(executions := db.executions + [ExecutionRow(p, key, None, Prepared)]))
  {
  }

  lemma BeginExecutionEffect(db: Db, x: Id)
    requires RefsOk(db)
    ensures var result := D.BeginExecution(db, x);
            && (result.Ok? <==>
                  && x < |db.executions| && db.executions[x].status.Prepared?
                  && db.incidents[IncidentOf(db, x)].AwaitingApproval?)
            && (result.Ok? ==>
                  result.value == db.(
                    executions := db.executions[x := db.executions[x].(status := ExecutionStatus.Running,
                                                                      startedAt := Some(db.now))],
                    incidents := Moved(db, IncidentOf(db, x), Remediating), log := result.value.log))
  {
  }

  /** `delete_pod` raised. */
  lemma RecordFailureEffect(db: Db, x: Id)
    requires RefsOk(db) && x < |db.executions|
    ensures var result, i := D.RecordFailure(db, x), IncidentOf(db, x);
            && (result.Ok? <==>
                  && db.executions[x].status in {Prepared, ExecutionStatus.Running}
                  && db.incidents[i] in {IncidentStatus.Diagnosing, Remediating, Verifying})
            && (result.Ok? ==>
                  result.value == db.(
                    executions := db.executions[x := db.executions[x].(status := ExecutionStatus.Failed)],
                    incidents := Moved(db, i, IncidentStatus.Failed),
                    tasks := Filed(db, i, FollowUp, AnExecution(x)), log := result.value.log))
  {
  }

  /** `delete_pod` returned. */
  lemma RecordSuccessEffect(db: Db, x: Id)
    requires RefsOk(db) && x < |db.executions|
    ensures var result, i, p := D.RecordSuccess(db, x), IncidentOf(db, x), db.executions[x].plan;
            && (result.Ok? <==>
                  && db.executions[x].status.Running? && db.plans[p].status.Executable?
                  && db.incidents[i] !in {Verifying, Resolved, Closed})
            && (result.Ok? ==>
                  result.value == db.(
                    executions := db.executions[x := db.executions[x].(status := Succeeded)],
                    plans := db.plans[p := db.plans[p].(status := Executed)],
                    incidents := Moved(db, i, Verifying), log := result.value.log))
  {
  }

  /** The recovery check is done. */
  lemma RecordVerificationEffect(db: Db, x: Id, healthy: bool)
    requires RefsOk(db) && x < |db.executions|
    ensures var result, i := D.RecordVerification(db, x, healthy), IncidentOf(db, x);
            && (result.Ok? <==>
                  if healthy then db.incidents[i].Verifying?
                  else db.executions[x].status.Succeeded?
                       && db.incidents[i] in {IncidentStatus.Diagnosing, Remediating, Verifying})
            && (result.Ok? && healthy ==>
                  result.value == db.(incidents := Moved(db, i, Resolved), log := result.value.log))
            && (result.Ok? && !healthy ==>
                  result.value == db.(
                    executions := db.executions[x := db.executions[x].(status := VerificationFailed)],
                    incidents := Moved(db, i, IncidentStatus.Failed),
                    tasks := Filed(db, i, Verification, AnExecution(x)), log := result.value.log))
  {
  }

  /** A job that raised: never refused, and the action never repeated. */
  lemma FailExecutionEffect(db: Db, x: Id)
    requires RefsOk(db)
    ensures var result := D.FailExecution(db, x);
            && (result.Ok? <==> x < |db.executions|)
            && (result.Ok? ==>
                  var i, row := IncidentOf(db, x), db.executions[x];
                  result.value == db.(
                    executions := if row.status in {Prepared, ExecutionStatus.Running}
                                  then db.executions[x := row.(status := ExecutionStatus.Failed)]
                                  else if row.status == Succeeded
                                  then db.executions[x := row.(status := VerificationFailed)] else db.executions,
                    incidents := if db.incidents[i] in {Remediating, Verifying}
                                 then Moved(db, i, IncidentStatus.Failed) else db.incidents,
                    tasks := if OpenFor(db, AnExecution(x)) then db.tasks
                             else Filed(db, i, Verification, AnExecution(x)),
                    log := result.value.log))
  {
    if x < |db.executions| {
      OpenForExecution(db, x);
    }
  }

  lemma OpenForExecution(db: Db, x: Id)
    ensures OpenFor(db, AnExecution(x)) <==> AnyOpenTask(db, None, AnExecution(x))
  {
    if OpenFor(db, AnExecution(x)) {
      var t :| 0 <= t < |db.tasks|
            && db.tasks[t].related == Some(AnExecution(x)) && db.tasks[t].status in {Todo, InProgress, Blocked};
      assert OpenTask(db.tasks[t].status);
    }
  }

  // ---- Recovery reported by an alert ----

  lemma ReceiveResolvedEffect(db: Db, i: Id)
    requires i < |db.incidents|
    ensures var result := D.ReceiveResolved(db, i);
            && (result.Ok? <==> db.incidents[i] !in {Resolved, Closed})
            && (result.Ok? ==> result.value == db.(incidents := Moved(db, i, Verifying), log := result.value.log))
  {
    assert db.incidents[i := db.incidents[i]] == db.incidents;
  }

  /** A healthy incident is resolved and its verification task done; otherwise it fails, with a task. */
  lemma ResolveIncidentEffect(db: Db, i: Id, healthy: bool, task: Option<Id>)
    requires i < |db.incidents| && (task.Some? ==> task.value < |db.tasks|)
    ensures var result := D.ResolveIncident(db, i, healthy, task);
            && (result.Ok? <==>
                  if healthy then
                    db.incidents[i].Verifying? && (task.Some? ==> db.tasks[task.value].status in {Todo, InProgress, Blocked})
                  else db.incidents[i] in {IncidentStatus.Diagnosing, Remediating, Verifying})
            && (result.Ok? ==>
                  result.value == db.(
                    incidents := Moved(db, i, if healthy then Resolved else IncidentStatus.Failed),
                    tasks := if healthy then
                               (if task.None? then db.tasks
                                else db.tasks[task.value := db.tasks[task.value].(status := Done)])
                             else if task.Some? then db.tasks else Filed(db, i, Verification, AnIncident(i)),
                    log := result.value.log))
  {
  }

  // ---- Queries for tasks ----

  /** What a task query gives: a row of the asked kind about the entity in an asked status, or proof there is none. */
  lemma FoundIsAsked(
    db: Db, found: Option<Id>, incident: Option<Id>, related: Entity, kinds: set<TaskType>, statuses: set<TaskStatus>)
    ensures Found(db, found, incident, related, kinds, statuses) <==>
              if found.Some? then
                && found.value < |db.tasks|
                && var task := db.tasks[found.value];
                   && task.related == Some(related) && task.kind in kinds && task.status in statuses
                   && (incident.Some? ==> task.incident == incident.value)
              else
                forall t | 0 <= t < |db.tasks| && db.tasks[t].related == Some(related)
                           && (incident.Some? ==> db.tasks[t].incident == incident.value) ::
                  db.tasks[t].kind !in kinds || db.tasks[t].status !in statuses
  {
  }

  // ---- The sweep ----

  predicate Different(ids: seq<Id>) { forall i, j | 0 <= i < j < |ids| :: ids[i] != ids[j] }

  function RunTask(db: Db, r: Id): TaskRow
    requires r < |db.runs|
  {
    TaskRow(db.runs[r].incident, ManualCheck, Some(ARun(r)), Todo)
  }

  function ExecutionTask(db: Db, x: Id): TaskRow
    requires RefsOk(db) && x < |db.executions|
  {
    TaskRow(IncidentOf(db, x), Verification, Some(AnExecution(x)), Todo)
  }

  lemma {:induction false} SweepRunsFrame(db: Db, rs: seq<Id>)
    requires RefsOk(db) && Below(rs, |db.runs|)
    ensures var swept := RecoverRuns(db, rs);
            && swept == db.(runs := swept.runs, incidents := swept.incidents, tasks := swept.tasks, log := swept.log)
            && |swept.runs| == |db.runs| && |swept.incidents| == |db.incidents|
            && forall r | 0 <= r < |db.runs| :: swept.runs[r].incident == db.runs[r].incident
    decreases |rs|
  {
    if rs != [] {
      SweepRunsFrame(db, rs[..|rs| - 1]);
    }
  }

  /** A swept RUNNING run is STOPPED, any other swept run FAILED; nobody else's row changes. */
  lemma {:induction false} SweptRun(db: Db, rs: seq<Id>, r: Id)
    requires RefsOk(db) && Below(rs, |db.runs|) && Different(rs) && r < |db.runs|
    ensures RecoverRuns(db, rs).runs[r] ==
              if r !in rs then db.runs[r]
              else db.runs[r].(status := if db.runs[r].status.Running? then Stopped else RunStatus.Failed)
    decreases |rs|
  {
    if rs != [] {
      var rest, last := rs[..|rs| - 1], rs[|rs| - 1];
      SweptRun(db, rest, r);
      SweepRunsFrame(db, rest);
      assert rs == rest + [last] && last !in rest;
    }
  }

  /** A DIAGNOSING incident of a swept run is FAILED; no other incident changes. */
  lemma {:induction false} SweptRunIncident(db: Db, rs: seq<Id>, i: Id)
    requires RefsOk(db) && Below(rs, |db.runs|) && i < |db.incidents|
    ensures |RecoverRuns(db, rs).incidents| == |db.incidents|
    ensures RecoverRuns(db, rs).incidents[i] ==
              if db.incidents[i].Diagnosing? && exists r | r in rs :: db.runs[r].incident == i
              then IncidentStatus.Failed else db.incidents[i]
    decreases |rs|
  {
    if rs != [] {
      var rest, last := rs[..|rs| - 1], rs[|rs| - 1];
      SweptRunIncident(db, rest, i);
      SweepRunsFrame(db, rest);
      OneRunIncident(RecoverRuns(db, rest), last, i);
      assert rs == rest + [last];
      assert (exists r | r in rs :: db.runs[r].incident == i) <==>
             (exists r | r in rest :: db.runs[r].incident == i) || db.runs[last].incident == i;
    }
  }

  lemma OneRunIncident(before: Db, r: Id, i: Id)
    requires RefsOk(before) && r < |before.runs| && i < |before.incidents|
    ensures |RecoverRun(before, r).incidents| == |before.incidents|
    ensures RecoverRun(before, r).incidents[i] ==
              if before.incidents[i].Diagnosing? && before.runs[r].incident == i
              then IncidentStatus.Failed else before.incidents[i]
  {
  }

  lemma OneRunTask(db: Db, before: Db, r: Id)
    requires RefsOk(db) && RefsOk(before) && r < |db.runs| == |before.runs| && before.runs[r] == db.runs[r]
    ensures RecoverRun(before, r).tasks ==
              before.tasks + (if db.runs[r].status.Running? then [RunTask(db, r)] else [])
  {
    assert before.tasks + [] == before.tasks;
  }

  function RunTasks(db: Db, rs: seq<Id>): seq<TaskRow>
    requires Below(rs, |db.runs|)
    decreases |rs|
  {
    if rs == [] then []
    else
      var last := |rs| - 1;
      RunTasks(db, rs[..last]) + (if db.runs[rs[last]].status.Running? then [RunTask(db, rs[last])] else [])
  }

  lemma {:induction false} RunTasksAre(db: Db, rs: seq<Id>, task: TaskRow)
    requires Below(rs, |db.runs|)
    ensures task in RunTasks(db, rs) <==> exists r | r in rs :: db.runs[r].status.Running? && task == RunTask(db, r)
    decreases |rs|
  {
    if rs != [] {
      var rest, last := rs[..|rs| - 1], rs[|rs| - 1];
      RunTasksAre(db, rest, task);
      assert rs == rest + [last];
    }
  }

  /** Exactly the swept RUNNING runs are handed to a human. */
  lemma {:induction false} SweptRunTasks(db: Db, rs: seq<Id>)
    requires RefsOk(db) && Below(rs, |db.runs|) && Different(rs)
    ensures RecoverRuns(db, rs).tasks == db.tasks + RunTasks(db, rs)
    decreases |rs|
  {
    if rs != [] {
      var rest, last := rs[..|rs| - 1], rs[|rs| - 1];
      SweptRunTasks(db, rest);
      LastIsUntouched(db, rs);
      OneRunTask(db, RecoverRuns(db, rest), last);
    }
  }

  lemma LastIsUntouched(db: Db, rs: seq<Id>)
    requires RefsOk(db) && Below(rs, |db.runs|) && Different(rs) && rs != []
    ensures var before, last := RecoverRuns(db, rs[..|rs| - 1]), rs[|rs| - 1];
            RefsOk(before) && |before.runs| == |db.runs| && before.runs[last] == db.runs[last]
  {
    var rest, last := rs[..|rs| - 1], rs[|rs| - 1];
    assert last !in rest;
    SweptRun(db, rest, last);
    SweepRunsFrame(db, rest);
  }

  lemma {:induction false} SweepExecutionsFrame(db: Db, xs: seq<Id>)
    requires RefsOk(db) && Below(xs, |db.executions|)
    ensures var swept := RecoverExecutions(db, xs);
            && swept == db.(executions := swept.executions, incidents := swept.incidents, tasks := swept.tasks,
                            log := swept.log)
            && |swept.executions| == |db.executions| && |swept.incidents| == |db.incidents|
            && forall x | 0 <= x < |db.executions| :: swept.executions[x].plan == db.executions[x].plan
    decreases |xs|
  {
    if xs != [] {
      SweepExecutionsFrame(db, xs[..|xs| - 1]);
    }
  }

  /** A swept execution is FAILED; nobody else's row changes. */
  lemma {:induction false} SweptExecution(db: Db, xs: seq<Id>, x: Id)
    requires RefsOk(db) && Below(xs, |db.executions|) && x < |db.executions|
    ensures RecoverExecutions(db, xs).executions[x] ==
              if x in xs then db.executions[x].(status := ExecutionStatus.Failed) else db.executions[x]
    decreases |xs|
  {
    if xs != [] {
      var rest, last := xs[..|xs| - 1], xs[|xs| - 1];
      SweptExecution(db, rest, x);
      SweepExecutionsFrame(db, rest);
      OneExecution(RecoverExecutions(db, rest), last, x);
      assert xs == rest + [last];
    }
  }

  lemma OneExecution(before: Db, last: Id, x: Id)
    requires RefsOk(before) && last < |before.executions| && x < |before.executions|
    ensures |RecoverExecution(before, last).executions| == |before.executions|
    ensures RecoverExecution(before, last).executions[x] ==
              if x == last then before.executions[x].(status := ExecutionStatus.Failed) else before.executions[x]
  {
  }

  lemma OneExecutionIncident(db: Db, before: Db, x: Id, i: Id)
    requires RefsOk(db) && RefsOk(before) && x < |db.executions| == |before.executions| && i < |before.incidents|
    requires IncidentOf(before, x) == IncidentOf(db, x)
    ensures |RecoverExecution(before, x).incidents| == |before.incidents|
    ensures RecoverExecution(before, x).incidents[i] ==
              if before.incidents[i] in {Remediating, Verifying} && IncidentOf(db, x) == i
              then IncidentStatus.Failed else before.incidents[i]
  {
  }

  /** A REMEDIATING or VERIFYING incident of a swept execution is FAILED; no other incident changes. */
  lemma {:induction false} SweptExecutionIncident(db: Db, xs: seq<Id>, i: Id)
    requires RefsOk(db) && Below(xs, |db.executions|) && i < |db.incidents|
    ensures |RecoverExecutions(db, xs).incidents| == |db.incidents|
    ensures RecoverExecutions(db, xs).incidents[i] ==
              if db.incidents[i] in {Remediating, Verifying} && exists x | x in xs :: IncidentOf(db, x) == i
              then IncidentStatus.Failed else db.incidents[i]
    decreases |xs|
  {
    if xs != [] {
      var rest, last := xs[..|xs| - 1], xs[|xs| - 1];
      SweptExecutionIncident(db, rest, i);
      SweepExecutionsFrame(db, rest);
      OneExecutionIncident(db, RecoverExecutions(db, rest), last, i);
      SweptOrLast(db, xs, i);
    }
  }

  lemma SweptOrLast(db: Db, xs: seq<Id>, i: Id)
    requires RefsOk(db) && Below(xs, |db.executions|) && xs != []
    ensures var rest, last := xs[..|xs| - 1], xs[|xs| - 1];
            (exists x | x in xs :: IncidentOf(db, x) == i) <==>
              (exists x | x in rest :: IncidentOf(db, x) == i) || IncidentOf(db, last) == i
  {
    assert xs == xs[..|xs| - 1] + [xs[|xs| - 1]];
  }

  function ExecutionTasks(db: Db, xs: seq<Id>): (tasks: seq<TaskRow>)
    requires RefsOk(db) && Below(xs, |db.executions|)
    ensures forall task :: task in tasks <==> exists x | x in xs :: task == ExecutionTask(db, x)
  {
    var tasks := seq(|xs|, k requires 0 <= k < |xs| => ExecutionTask(db, xs[k]));
    assert forall k | 0 <= k < |xs| :: tasks[k] == ExecutionTask(db, xs[k]);
    tasks
  }

  /** Every swept execution is handed to a human. */
  lemma {:induction false} SweptExecutionTasks(db: Db, xs: seq<Id>)
    requires RefsOk(db) && Below(xs, |db.executions|)
    ensures RecoverExecutions(db, xs).tasks == db.tasks + ExecutionTasks(db, xs)
    decreases |xs|
  {
    if xs != [] {
      var rest, last := xs[..|xs| - 1], xs[|xs| - 1];
      SweptExecutionTasks(db, rest);
      SweepExecutionsFrame(db, rest);
      assert ExecutionTasks(db, xs) == ExecutionTasks(db, rest) + [ExecutionTask(db, last)];
    } else {
      assert db.tasks + ExecutionTasks(db, xs) == db.tasks;
    }
  }

  // ---- The whole sweep ----

  /** One sweep, run by run, execution by execution and incident by incident. */
  lemma SweepEffect(db: Db, rs: seq<Id>, xs: seq<Id>)
    requires RefsOk(db) && Below(rs, |db.runs|) && Below(xs, |db.executions|) && Different(rs)
    ensures var swept := D.Recover(db, rs, xs);
            && swept == db.(runs := swept.runs, executions := swept.executions, incidents := swept.incidents,
                            tasks := swept.tasks, log := swept.log)
            && |swept.runs| == |db.runs| && |swept.executions| == |db.executions|
            && |swept.incidents| == |db.incidents|
    ensures forall r | 0 <= r < |db.runs| ::
              D.Recover(db, rs, xs).runs[r] ==
                if r !in rs then db.runs[r]
                else db.runs[r].(status := if db.runs[r].status.Running? then Stopped else RunStatus.Failed)
    ensures forall x | 0 <= x < |db.executions| ::
              D.Recover(db, rs, xs).executions[x] ==
                if x in xs then db.executions[x].(status := ExecutionStatus.Failed) else db.executions[x]
    ensures forall i | 0 <= i < |db.incidents| ::
              D.Recover(db, rs, xs).incidents[i] ==
                if || (db.incidents[i].Diagnosing? && exists r | r in rs :: db.runs[r].incident == i)
                   || (db.incidents[i] in {Remediating, Verifying} && exists x | x in xs :: IncidentOf(db, x) == i)
                then IncidentStatus.Failed else db.incidents[i]
  {
    var middle := RecoverRuns(db, rs);
    SweepRunsFrame(db, rs);
    SweepExecutionsFrame(middle, xs);
    forall r: nat | r < |db.runs| ensures D.Recover(db, rs, xs).runs[r] ==
        if r !in rs then db.runs[r]
        else db.runs[r].(status := if db.runs[r].status.Running? then Stopped else RunStatus.Failed) {
      SweptRun(db, rs, r);
    }
    forall x: nat | x < |db.executions| ensures D.Recover(db, rs, xs).executions[x] ==
        if x in xs then db.executions[x].(status := ExecutionStatus.Failed) else db.executions[x] {
      SweptExecution(middle, xs, x);
    }
    forall i: nat | i < |db.incidents| ensures D.Recover(db, rs, xs).incidents[i] ==
        if || (db.incidents[i].Diagnosing? && exists r | r in rs :: db.runs[r].incident == i)
           || (db.incidents[i] in {Remediating, Verifying} && exists x | x in xs :: IncidentOf(db, x) == i)
        then IncidentStatus.Failed else db.incidents[i] {
      SweptIncident(db, rs, xs, i);
    }
  }

  lemma SweptIncident(db: Db, rs: seq<Id>, xs: seq<Id>, i: Id)
    requires RefsOk(db) && Below(rs, |db.runs|) && Below(xs, |db.executions|) && i < |db.incidents|
    ensures |D.Recover(db, rs, xs).incidents| == |db.incidents|
    ensures D.Recover(db, rs, xs).incidents[i] ==
              if || (db.incidents[i].Diagnosing? && exists r | r in rs :: db.runs[r].incident == i)
                 || (db.incidents[i] in {Remediating, Verifying} && exists x | x in xs :: IncidentOf(db, x) == i)
              then IncidentStatus.Failed else db.incidents[i]
  {
    var middle := RecoverRuns(db, rs);
    SweepRunsFrame(db, rs);
    SweptRunIncident(db, rs, i);
    SweptExecutionIncident(middle, xs, i);
    assert forall x | x in xs :: IncidentOf(middle, x) == IncidentOf(db, x);
  }

  /** The tasks of one sweep: one for each swept RUNNING run and one for each swept execution, nothing else. */
  lemma SweepTasks(db: Db, rs: seq<Id>, xs: seq<Id>, task: TaskRow)
    requires RefsOk(db) && Below(rs, |db.runs|) && Below(xs, |db.executions|) && Different(rs)
    ensures var tasks := D.Recover(db, rs, xs).tasks;
            && db.tasks <= tasks
            && (task in tasks[|db.tasks|..] <==>
                  || (exists r | r in rs :: db.runs[r].status.Running? && task == RunTask(db, r))
                  || (exists x | x in xs :: task == ExecutionTask(db, x)))
  {
    var middle := RecoverRuns(db, rs);
    SweptRunTasks(db, rs);
    RunTasksAre(db, rs, task);
    SweepRunsFrame(db, rs);
    SweptExecutionTasks(middle, xs);
    SameExecutionTasks(db, middle, xs);
    assert D.Recover(db, rs, xs).tasks == db.tasks + (RunTasks(db, rs) + ExecutionTasks(db, xs));
  }

  lemma SameExecutionTasks(db: Db, middle: Db, xs: seq<Id>)
    requires RefsOk(db) && RefsOk(middle) && middle.executions == db.executions && middle.plans == db.plans
    requires Below(xs, |db.executions|)
    ensures ExecutionTasks(middle, xs) == ExecutionTasks(db, xs)
  {
  }
}
