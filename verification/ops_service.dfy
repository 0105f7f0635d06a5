/**
 * `OpsService` and the recovery sweep as they run: methods that change the shared tables in one
 * transaction at a time, while other processes act between the transactions.
 */
module OpsService {
  import opened Common
  import opened Domain
  import opened OpsDatabase
  import opened OpsEffects
  import opened OpsInvariants
  import opened Remediation
  import opened RemediationInvariants
  import opened RemediationGuarantees
  import D = OpsDatabase

  /** The conditions under which an execution may start. */
  predicate Startable(db: Db, x: Id)
    requires RefsOk(db)
  {
    x < |db.executions| && db.executions[x].status.Prepared? && db.incidents[IncidentOf(db, x)].AwaitingApproval?
  }

  lemma BeginsIffStartable(db: Db, x: Id)
    requires RefsOk(db)
    ensures D.BeginExecution(db, x).Ok? <==> Startable(db, x)
  {
  }

  /** One process; `workers` and `deletions` are history about everybody. */
  class OpsService {
    const me: WorkerId
    var db: Db
    ghost var workers: map<WorkerId, Pc>
    ghost var deletions: seq<Deletion>

    ghost function Now(): World
      reads this
    {
      World(db, workers, deletions)
    }

    ghost predicate Valid()
      reads this
    {
      WorldOk(Now())
    }

    ghost predicate Free()
      reads this
    {
      PcOf(Now(), me).Idle?
    }

    constructor (id: WorkerId)
      ensures Valid() && Free() && me == id && Empty(Now())
    {
      me := id;
      db := Db([], [], [], [], [], [], 0);
      workers, deletions := map[], [];
      new;
      EmptyWorldOk(Now());
    }

    /** Anything the other processes may do in the meantime; nothing is one possibility. */
    method Others()
      requires Valid()
      modifies this
      ensures Valid()
      ensures PcOf(Now(), me) == old(PcOf(Now(), me)) && old(deletions) <= deletions
    {
    }

    // ---- Executions ----

    /** The first transaction of `process_execution`. */
    method BeginExecution(x: Id) returns (target: Result<PodTarget, Error>)
      requires Valid() && Free()
      modifies this
      ensures Valid()
      ensures StepBeginExecution(old(Now()), me, x) == Some(Now())
      ensures target.Ok? <==> old(Startable(db, x))
      ensures target.Ok? ==> PcOf(Now(), me) == Deleting(x, target.value)
      ensures target.Err? ==> db == old(db) && deletions == old(deletions)
    {
      BeginsIffStartable(db, x);
      BeginExecutionKeeps(Now(), me, x);
      if x >= |db.executions| {
        workers := workers[me := Idle];
        return Err(NotFound);
      }
      var session := MoveExecution(db, x, ExecutionStatus.Running);
      if session.Ok? {
        var row := session.value.executions[x].(startedAt := Some(db.now));
        var started := session.value.(executions := session.value.executions[x := row]);
        session := MoveIncident(started, IncidentOf(db, x), Remediating);
      }
      assert session == D.BeginExecution(db, x);
      if session.Err? {
        workers := workers[me := Idle];
        return Err(InvalidTransition);
      }
      target := Ok(db.plans[db.executions[x].plan].target);
      db := session.value;
      workers := workers[me := Deleting(x, target.value)];
    }

    /** The call to the cluster; `raised` is what it did. */
    method DeletePod(x: Id, target: PodTarget, raised: bool)
      requires Valid() && PcOf(Now(), me) == Deleting(x, target)
      modifies this`workers, this`deletions
      ensures Valid()
      ensures StepDeletePod(old(Now()), me, raised) == Some(Now())
      ensures PcOf(Now(), me) == (if raised then DeleteRaised(x) else DeleteReturned(x))
      ensures deletions == old(deletions) + [Deletion(x, target)]
    {
      deletions := deletions + [Deletion(x, target)];
      workers := workers[me := if raised then DeleteRaised(x) else DeleteReturned(x)];
      DeleteKeeps(old(Now()), me, raised);
    }

    /** The transaction after `delete_pod` raised. */
    method RecordFailure(x: Id) returns (ok: bool)
      requires Valid() && PcOf(Now(), me) == DeleteRaised(x) && x < |db.executions|
      modifies this
      ensures Valid()
      ensures StepRecordFailure(old(Now()), me) == Some(Now())
      ensures Free() && deletions == old(deletions)
      ensures ok <==>
                && old(db).executions[x].status in {Prepared, ExecutionStatus.Running}
                && old(db).incidents[old(IncidentOf(db, x))] in {IncidentStatus.Diagnosing, Remediating, Verifying}
      ensures ok ==>
                && db.executions[x].status.Failed? && db.incidents[IncidentOf(db, x)].Failed?
                && db.tasks == Filed(old(db), old(IncidentOf(db, x)), FollowUp, AnExecution(x))
      ensures !ok ==> db == old(db)
    {
      RecordFailureEffect(db, x);
      var i := IncidentOf(db, x);
      var session := MoveExecution(db, x, ExecutionStatus.Failed);
      if session.Ok? {
        session := MoveIncident(session.value, i, IncidentStatus.Failed);
      }
      if session.Ok? {
        db := AddTask(session.value, i, FollowUp, Some(AnExecution(x)));
      }
      ok := session.Ok?;
      workers := workers[me := Idle];
      RecordFailureKeeps(old(Now()), me);
    }

    /** The transaction after `delete_pod` returned. */
    method RecordSuccess(x: Id) returns (ok: bool)
      requires Valid() && PcOf(Now(), me) == DeleteReturned(x) && x < |db.executions|
      modifies this
      ensures Valid()
      ensures StepRecordSuccess(old(Now()), me) == Some(Now())
      ensures deletions == old(deletions)
      ensures ok <==>
                && old(db).executions[x].status.Running? && old(db).plans[old(db).executions[x].plan].status.Executable?
                && old(db).incidents[old(IncidentOf(db, x))] !in {Verifying, Resolved, Closed}
      ensures ok ==> PcOf(Now(), me) == VerifyingRecovery(x) && db.executions[x].status.Succeeded?
      ensures ok ==> db.plans[db.executions[x].plan].status.Executed? && db.incidents[IncidentOf(db, x)].Verifying?
      ensures !ok ==> Free() && db == old(db)
    {
      RecordSuccessEffect(db, x);
      var session := MoveExecution(db, x, Succeeded);
      if session.Ok? {
        session := MovePlan(session.value, db.executions[x].plan, Executed);
      }
      if session.Ok? {
        session := MoveIncident(session.value, IncidentOf(db, x), Verifying);
      }
      ok := session.Ok?;
      if ok {
        db := session.value;
      }
      workers := workers[me := if ok then VerifyingRecovery(x) else Idle];
      RecordSuccessKeeps(old(Now()), me);
    }

    /** The last transaction of `process_execution`. */
    method RecordVerification(x: Id, healthy: bool) returns (ok: bool)
      requires Valid() && PcOf(Now(), me) == VerifyingRecovery(x) && x < |db.executions|
      modifies this
      ensures Valid()
      ensures StepRecordVerification(old(Now()), me, healthy) == Some(Now())
      ensures Free() && deletions == old(deletions)
      ensures ok <==>
                if healthy then old(db).incidents[old(IncidentOf(db, x))].Verifying?
                else old(db).executions[x].status.Succeeded?
                     && old(db).incidents[old(IncidentOf(db, x))] in {IncidentStatus.Diagnosing, Remediating, Verifying}
      ensures ok && healthy ==> db.incidents[IncidentOf(db, x)].Resolved? && db.executions == old(db).executions
      ensures ok && !healthy ==>
                && db.executions[x].status.VerificationFailed? && db.incidents[IncidentOf(db, x)].Failed?
                && db.tasks == Filed(old(db), old(IncidentOf(db, x)), Verification, AnExecution(x))
      ensures !ok ==> db == old(db)
    {
      RecordVerificationEffect(db, x, healthy);
      var i := IncidentOf(db, x);
      var session := Ok(db);
      if healthy {
        session := MoveIncident(db, i, Resolved);
      } else {
        session := MoveExecution(db, x, VerificationFailed);
        if session.Ok? {
          session := MoveIncident(session.value, i, IncidentStatus.Failed);
        }
        if session.Ok? {
          session := Ok(AddTask(session.value, i, Verification, Some(AnExecution(x))));
        }
      }
      ok := session.Ok?;
      if ok {
        db := session.value;
      }
      workers := workers[me := Idle];
      RecordVerificationKeeps(old(Now()), me, healthy);
    }

    /** What the last transaction of a job leaves for what the cluster answered. */
    predicate Recorded(x: Id, raised: bool, healthy: bool)
      reads this
    {
      && RefsOk(db) && x < |db.executions|
      && var incident := db.incidents[IncidentOf(db, x)];
         if raised then db.executions[x].status.Failed? && incident.Failed?
         else if healthy then incident.Resolved?
         else db.executions[x].status.VerificationFailed? && incident.Failed?
    }

    /**
     * `process_execution`, with the cluster's answers. It invokes `delete_pod` exactly when the
     * execution could start, and then on the target of its plan, for the first time.
     */
    method ProcessExecution(x: Id, raised: bool, healthy: bool) returns (ok: bool)
      requires Valid() && Free()
      modifies this
      ensures Valid() && Free() && old(deletions) <= deletions
      ensures old(Startable(db, x)) ==>
                !Deleted(old(deletions), x) && Deletion(x, old(Target(db, x))) in deletions
      ensures !old(Startable(db, x)) ==> !ok && db == old(db) && deletions == old(deletions)
      ensures ok ==> Recorded(x, raised, healthy)
    {
      var begun := BeginExecution(x);
      if begun.Err? {
        return false;
      }
      ok := DeleteAndRecord(x, begun.value, raised, healthy);
    }

    method DeleteAndRecord(x: Id, target: PodTarget, raised: bool, healthy: bool) returns (ok: bool)
      requires Valid() && PcOf(Now(), me) == Deleting(x, target)
      modifies this
      ensures Valid() && Free() && old(deletions) <= deletions
      ensures !Deleted(old(deletions), x) && Deletion(x, target) in deletions
      ensures ok ==> Recorded(x, raised, healthy)
    {
      assert PcOk(db, deletions, PcOf(Now(), me));
      Others();
      DeletePod(x, target, raised);
      ghost var made := deletions;
      assert made[|made| - 1] == Deletion(x, target);
      ok := Record(x, raised, healthy);
      assert Deletion(x, target) in made && made <= deletions;
    }

    method Record(x: Id, raised: bool, healthy: bool) returns (ok: bool)
      requires Valid() && PcOf(Now(), me) == (if raised then DeleteRaised(x) else DeleteReturned(x))
      modifies this
      ensures Valid() && Free() && old(deletions) <= deletions
      ensures ok ==> Recorded(x, raised, healthy)
    {
      if raised {
        ok := RecordRaised(x);
      } else {
        ok := RecordReturned(x, healthy);
      }
    }

    method RecordRaised(x: Id) returns (ok: bool)
      requires Valid() && PcOf(Now(), me) == DeleteRaised(x)
      modifies this
      ensures Valid() && Free() && old(deletions) <= deletions
      ensures ok ==> Recorded(x, true, false)
    {
      Others();
      assert PcOk(db, deletions, PcOf(Now(), me));
      ok := RecordFailure(x);
    }

    method RecordReturned(x: Id, healthy: bool) returns (ok: bool)
      requires Valid() && PcOf(Now(), me) == DeleteReturned(x)
      modifies this
      ensures Valid() && Free() && old(deletions) <= deletions
      ensures ok ==> Recorded(x, false, healthy)
    {
      Others();
      assert PcOk(db, deletions, PcOf(Now(), me));
      ok := RecordSuccess(x);
      if ok {
        ok := Verify(x, healthy);
      }
    }

    method Verify(x: Id, healthy: bool) returns (ok: bool)
      requires Valid() && PcOf(Now(), me) == VerifyingRecovery(x)
      modifies this
      ensures Valid() && Free() && old(deletions) <= deletions
      ensures ok ==> Recorded(x, false, healthy)
    {
      Others();
      assert PcOk(db, deletions, PcOf(Now(), me));
      ok := RecordVerification(x, healthy);
    }

    /** `fail_execution`: the handler of a job that raised, and of any redelivery that did. */
    method FailExecution(x: Id)
      requires Valid()
      modifies this
      ensures Valid()
      ensures Now() == Request(old(Now()), D.FailExecution(old(db), x))
      ensures x < |db.executions| ==> !db.executions[x].status.Prepared? && !db.executions[x].status.Running?
    {
      RequestedKeeps(Now(), Action.FailExecution(x));
      if x >= |db.executions| {
        return;
      }
      var i, session := IncidentOf(db, x), db;
      var status := db.executions[x].status;
      if status.Succeeded? {
        session := SetExecution(session, x, VerificationFailed);
      } else if status.Prepared? || status.Running? {
        session := SetExecution(session, x, ExecutionStatus.Failed);
      }
      if session.incidents[i].Remediating? || session.incidents[i].Verifying? {
        session := SetIncident(session, i, IncidentStatus.Failed);
      }
      if !AnyOpenTask(db, None, AnExecution(x)) {
        session := AddTask(session, i, Verification, Some(AnExecution(x)));
      }
      db := session;
    }

    /** An execution with the key, if there is one. */
    method FindExecution(key: string) returns (found: Option<Id>)
      requires Valid()
      ensures found.Some? ==> found.value < |db.executions| && db.executions[found.value].key == key
      ensures found.None? ==> forall x | 0 <= x < |db.executions| :: db.executions[x].key != key
    {
      var x := 0;
      while x < |db.executions|
        invariant 0 <= x <= |db.executions|
        invariant forall y | 0 <= y < x :: db.executions[y].key != key
      {
        if db.executions[x].key == key {
          return Some(x);
        }
        x := x + 1;
      }
      return None;
    }

    /** The insert transaction of `create_execution`. */
    method InsertExecution(p: Id, key: string) returns (inserted: Result<Id, Error>)
      requires Valid()
      modifies this
      ensures Valid()
      ensures Now() == Request(old(Now()), D.CreateExecution(old(db), p, key))
      ensures inserted.Ok? ==>
                && inserted.value == |old(db).executions| < |db.executions|
                && db.executions[inserted.value] == ExecutionRow(p, key, None, Prepared)
      ensures inserted.Err? ==> db == old(db) && D.CreateExecution(db, p, key) == Err(inserted.error)
    {
      RequestedKeeps(Now(), Action.CreateExecution(p, key));
      if p >= |db.plans| {
        return Err(NotFound);
      }
      if !db.plans[p].status.Executable? {
        return Err(InvalidTransition);
      }
      var existing := FindExecution(key);
      if existing.Some? {
        return Err(KeyTaken);
      }
      inserted := Ok(|db.executions|);
      db := db.(executions := db.executions + [ExecutionRow(p, key, None, Prepared)]);
    }

    /**
     * `create_execution`: look up the key, insert, and look it up again when the insert lost a race.
     * Whoever asks with a key gets the one execution that has it.
     */
    method CreateExecution(p: Id, key: string) returns (r: Result<Id, Error>, created: bool)
      requires Valid()
      modifies this
      ensures Valid()
      ensures r.Ok? ==>
                && r.value < |db.executions| && db.executions[r.value].key == key && db.executions[r.value].plan == p
                && forall x | 0 <= x < |db.executions| && db.executions[x].key == key :: x == r.value
      ensures created ==> r.Ok? && db.executions[r.value].status.Prepared?
    {
      var existing := FindExecution(key);
      if existing.None? {
        Others();
        r := InsertExecution(p, key);
        if r.Ok? {
          KeyIsUnique(db, r.value);
          return r, true;
        }
        if !r.error.KeyTaken? {
          return r, false;
        }
        Others();
        existing := FindExecution(key);
        if existing.None? {
          return Err(KeyTaken), false;
        }
      }
      if db.executions[existing.value].plan != p {
        return Err(ValidationFailed), false;
      }
      KeyIsUnique(db, existing.value);
      return Ok(existing.value), false;
    }

    // ---- Plans ----

    /** `create_plan`: a draft for a diagnosed incident, which becomes PLAN_READY. */
    method CreatePlan(i: Id, target: PodTarget, wellFormed: bool) returns (plan: Result<Id, Error>)
      requires Valid()
      modifies this
      ensures Valid()
      ensures Now() == Request(old(Now()), D.CreatePlan(old(db), i, target, wellFormed))
      ensures plan.Ok? <==> wellFormed && i < |old(db).incidents| && old(db).incidents[i].Diagnosed?
      ensures plan.Ok? ==>
                && plan.value == |old(db).plans| < |db.plans| && i < |db.incidents|
                && db.plans[plan.value] == PlanRow(i, target, None, Draft) && db.incidents[i].PlanReady?
    {
      RequestedKeeps(Now(), Action.CreatePlan(i, target, wellFormed));
      if !wellFormed {
        return Err(ValidationFailed);
      }
      if i >= |db.incidents| {
        return Err(NotFound);
      }
      if !db.incidents[i].Diagnosed? {
        return Err(InvalidTransition);
      }
      plan := Ok(|db.plans|);
      db := db.(plans := db.plans + [PlanRow(i, target, None, Draft)]);
      db := SetIncident(db, i, PlanReady);
    }

    /** `reject_plan`: rejected, its incident diagnosed again, and its approval task cancelled. */
    method RejectPlan(p: Id) returns (ok: bool)
      requires Valid()
      modifies this
      ensures Valid()
      ensures exists found ::
                && Found(old(db), found, None, APlan(p), {Approval}, {Todo, InProgress, Blocked})
                && Now() == Request(old(Now()), D.RejectPlan(old(db), p, found))
      ensures ok ==> p < |db.plans| && db.plans[p].status.Rejected? && db.incidents[db.plans[p].incident].Diagnosed?
      ensures ok ==>
                if exists t | 0 <= t < |old(db).tasks| :: AsksApproval(old(db).tasks[t], p, {Todo, InProgress, Blocked}) then
                  exists t | 0 <= t < |old(db).tasks| && AsksApproval(old(db).tasks[t], p, {Todo, InProgress, Blocked}) ::
                    db.tasks == old(db).tasks[t := old(db).tasks[t].(status := TaskStatus.Cancelled)]
                else db.tasks == old(db).tasks
      ensures ok <==>
                && p < |old(db).plans| && old(db).plans[p].status.AwaitingApproval?
                && old(db).incidents[old(db).plans[p].incident] in
                     {IncidentStatus.Diagnosing, PlanReady, IncidentStatus.AwaitingApproval}
    {
      var found := FindTask(None, APlan(p), {Approval}, {Todo, InProgress, Blocked});
      RejectPlanKeeps(Now(), p, found);
      if p >= |db.plans| || Rejected !in PlanEdges(db.plans[p].status) {
        return false;
      }
      var i := db.plans[p].incident;
      if Diagnosed !in IncidentEdges(db.incidents[i]) {
        return false;
      }
      var session := SetIncident(SetPlan(db, p, Rejected), i, Diagnosed);
      if found.Some? {
        session := SetTask(session, found.value, TaskStatus.Cancelled);
      }
      db := session;
      return true;
    }

    /** `dry_run_plan`, with what the cluster reported; a denial is stored before it is raised. */
    method DryRunPlan(p: Id, inspection: Inspection, namespaces: set<string>) returns (allowed: Result<bool, Error>)
      requires Valid()
      modifies this
      ensures Valid()
      ensures Now() == Request(old(Now()), D.DryRunPlan(old(db), p, inspection, namespaces))
      ensures allowed.Ok? <==> D.DryRunPlan(old(db), p, inspection, namespaces).Ok?
      ensures allowed.Ok? ==>
                && p < |db.plans|
                && (allowed.value <==> Cleared(db.plans[p]) && db.plans[p].status.AwaitingApproval?)
                && (!allowed.value <==> db.plans[p].status.Cancelled?)
    {
      RequestedKeeps(Now(), Action.DryRunPlan(p, inspection, namespaces));
      if p >= |db.plans| {
        return Err(NotFound);
      }
      if !db.plans[p].status.Draft? {
        return Err(InvalidTransition);
      }
      var i, plan := db.plans[p].incident, db.plans[p];
      var inspected := NamespaceAllowed(plan.target, namespaces);
      var denied := || !inspected || !inspection.exists_ || inspection.uid != plan.target.podUid
                    || inspection.workload.kind !in ALLOWED_WORKLOADS || !inspection.abnormal;
      plan := plan.(dryRun := Some(DryRun(!denied, plan.target, namespaces, if inspected then Some(inspection) else None)));
      var session: Result<Db, Error>;
      if denied {
        session := MovePlan(db.(plans := db.plans[p := plan]), p, PlanStatus.Cancelled);
        session := MoveIncident(session.value, i, Diagnosed);
      } else {
        plan := plan.(target := plan.target.(workload := Some(inspection.workload)));
        session := MovePlan(db.(plans := db.plans[p := plan]), p, DryRunReady);
        session := MovePlan(session.value, p, PlanStatus.AwaitingApproval);
        session := MoveIncident(session.value, i, IncidentStatus.AwaitingApproval);
      }
      if session.Err? {
        return Err(session.error);
      }
      db := if denied then session.value else AddTask(session.value, i, Approval, Some(APlan(p)));
      return Ok(!denied);
    }

    /** A task a query may return. */
    method FindTask(incident: Option<Id>, related: Entity, kinds: set<TaskType>, statuses: set<TaskStatus>)
      returns (found: Option<Id>)
      ensures Found(db, found, incident, related, kinds, statuses)
    {
      var t := 0;
      while t < |db.tasks|
        invariant 0 <= t <= |db.tasks|
        invariant forall u | 0 <= u < t :: !Matches(db.tasks[u], incident, related, kinds, statuses)
      {
        if Matches(db.tasks[t], incident, related, kinds, statuses) {
          return Some(t);
        }
        t := t + 1;
      }
      return None;
    }

    /** `approve_plan`: approved, executable, and its approval task done. */
    method ApprovePlan(p: Id) returns (ok: bool)
      requires Valid()
      modifies this
      ensures Valid()
      ensures exists found ::
                && Found(old(db), found, None, APlan(p), {Approval}, {Todo, InProgress})
                && Now() == Request(old(Now()), D.ApprovePlan(old(db), p, found))
      ensures ok <==> p < |old(db).plans| && old(db).plans[p].status.AwaitingApproval?
      ensures ok ==> db.plans[p].status.Executable?
      ensures ok ==>
                if exists t | 0 <= t < |old(db).tasks| :: AsksApproval(old(db).tasks[t], p, {Todo, InProgress}) then
                  exists t | 0 <= t < |old(db).tasks| && AsksApproval(old(db).tasks[t], p, {Todo, InProgress}) ::
                    db.tasks == old(db).tasks[t := old(db).tasks[t].(status := Done)]
                else db.tasks == old(db).tasks
    {
      var found := FindTask(None, APlan(p), {Approval}, {Todo, InProgress});
      ApprovePlanKeeps(Now(), p, found);
      if p >= |db.plans| || Approved !in PlanEdges(db.plans[p].status) {
        return false;
      }
      var session := SetPlan(SetPlan(db, p, Approved), p, Executable);
      if found.Some? {
        if session.tasks[found.value].status.Todo? {
          session := SetTask(session, found.value, InProgress);
        }
        session := SetTask(session, found.value, Done);
      }
      db := session;
      return true;
    }

    // ---- Agent runs ----

    /** `fail_agent_run`: the handler of a diagnosis job that raised, and of any redelivery that did. */
    method FailAgentRun(r: Id)
      requires Valid()
      modifies this
      ensures Valid()
      ensures Now() == Request(old(Now()), D.FailRun(old(db), r))
      ensures r < |db.runs| ==> TerminalRun(db.runs[r].status) && !db.incidents[db.runs[r].incident].Diagnosing?
    {
      RequestedKeeps(Now(), Action.FailRun(r));
      if r >= |db.runs| {
        return;
      }
      var i := db.runs[r].incident;
      if !TerminalRun(db.runs[r].status) {
        db := SetRun(db, r, RunStatus.Failed);
      }
      if db.incidents[i].Diagnosing? {
        db := SetIncident(db, i, IncidentStatus.Failed);
      }
    }

    /** The first transaction of `process_diagnosis` without the agent core. */
    method BeginDiagnosis(r: Id) returns (ok: bool)
      requires Valid() && Free()
      modifies this
      ensures Valid()
      ensures StepBeginDiagnosis(old(Now()), me, r) == Some(Now())
      ensures ok <==> r < |old(db).runs| && old(db).runs[r].status.Queued?
      ensures ok ==> PcOf(Now(), me) == CollectingFor(r)
      ensures !ok ==> Free() && db == old(db)
    {
      BeginDiagnosisKeeps(Now(), me, r);
      var session := BeginDiagnosisRows(db, r);
      ok := session.Ok?;
      if ok {
        db := session.value;
      }
      workers := workers[me := if ok then CollectingFor(r) else Idle];
    }

    /** Its last transaction: DIAGNOSING and COMPLETED in one. */
    method EndDiagnosis(r: Id) returns (ok: bool)
      requires Valid() && PcOf(Now(), me) == CollectingFor(r) && r < |db.runs|
      modifies this
      ensures Valid() && Free()
      ensures StepEndDiagnosis(old(Now()), me) == Some(Now())
      ensures ok <==> old(db).runs[r].status.Collecting?
      ensures ok ==> r < |db.runs| && db.runs[r].status.Completed? && !db.incidents[db.runs[r].incident].Diagnosing?
      ensures !ok ==> db == old(db)
    {
      EndDiagnosisKeeps(Now(), me);
      workers := workers[me := Idle];
      if !db.runs[r].status.Collecting? {
        return false;
      }
      var i := db.runs[r].incident;
      db := SetRun(db, r, RunStatus.Diagnosing);
      db := SetRun(db, r, Completed);
      if db.incidents[i].Diagnosing? {
        db := SetIncident(db, i, Diagnosed);
      }
      return true;
    }

    // ---- Alerts ----

    /** The first transaction of `resolve_incident_from_alert`, for the active incident it found. */
    method ReceiveResolved(i: Id) returns (ok: bool)
      requires Valid() && Free() && i < |db.incidents|
      modifies this
      ensures Valid()
      ensures StepReceiveResolved(old(Now()), me, i) == Some(Now())
      ensures ok <==> ActiveIncident(old(db).incidents[i])
      ensures ok ==> PcOf(Now(), me) == VerifyingAlert(i) && i < |db.incidents| && db.incidents[i].Verifying?
      ensures !ok ==> Free() && db == old(db)
    {
      ReceiveResolvedKeeps(Now(), me, i);
      if !ActiveIncident(db.incidents[i]) {
        workers := workers[me := Idle];
        return false;
      }
      if !db.incidents[i].Verifying? {
        db := SetIncident(db, i, Verifying);
      }
      workers := workers[me := VerifyingAlert(i)];
      return true;
    }

    /** The second transaction of `resolve_incident_from_alert`, with what the verifier found. */
    method ResolveVerified(i: Id, healthy: bool) returns (ok: bool)
      requires Valid() && PcOf(Now(), me) == VerifyingAlert(i) && i < |db.incidents|
      modifies this
      ensures Valid() && Free()
      ensures ok ==> i < |db.incidents| && (if healthy then db.incidents[i].Resolved? else db.incidents[i].Failed?)
      ensures !ok ==> db == old(db)
      ensures ok <==> (if healthy then Resolved else IncidentStatus.Failed) in IncidentEdges(old(db).incidents[i])
      ensures exists found :: StepResolveIncident(old(Now()), me, healthy, found) == Some(Now())
    {
      var found := FindTask(Some(i), AnIncident(i), {Verification}, {Todo, InProgress, Blocked});
      ResolveIncidentKeeps(Now(), me, healthy, found);
      workers := workers[me := Idle];
      var to := if healthy then Resolved else IncidentStatus.Failed;
      if to !in IncidentEdges(db.incidents[i]) {
        return false;
      }
      var session := SetIncident(db, i, to);
      if healthy && found.Some? {
        if !session.tasks[found.value].status.InProgress? {
          session := SetTask(session, found.value, InProgress);
        }
        session := SetTask(session, found.value, Done);
      }
      if !healthy && found.None? {
        session := AddTask(session, i, Verification, Some(AnIncident(i)));
      }
      db := session;
      return true;
    }

    // ---- Recovery ----

    /** The sweep's query for runs, without the locked ones. */
    method DueRuns(cutoff: int, locked: set<Id>) returns (rs: seq<Id>)
      requires Valid()
      ensures Distinct(rs) && forall k | 0 <= k < |rs| :: RunDue(db, rs[k], cutoff)
      ensures forall r | 0 <= r < |db.runs| && RunDue(db, r, cutoff) :: r in rs || r in locked
    {
      rs := [];
      var r := 0;
      while r < |db.runs|
        invariant 0 <= r <= |db.runs|
        invariant Distinct(rs) && forall k | 0 <= k < |rs| :: rs[k] < r && RunDue(db, rs[k], cutoff)
        invariant forall q | 0 <= q < r && RunDue(db, q, cutoff) :: q in rs || q in locked
      {
        if RunDue(db, r, cutoff) && r !in locked {
          rs := rs + [r];
        }
        r := r + 1;
      }
    }

    /** Its query for executions. */
    method DueExecutions(cutoff: int, locked: set<Id>) returns (xs: seq<Id>)
      requires Valid()
      ensures Distinct(xs) && forall k | 0 <= k < |xs| :: ExecutionDue(db, xs[k], cutoff)
      ensures forall x | 0 <= x < |db.executions| && ExecutionDue(db, x, cutoff) :: x in xs || x in locked
    {
      xs := [];
      var x := 0;
      while x < |db.executions|
        invariant 0 <= x <= |db.executions|
        invariant Distinct(xs) && forall k | 0 <= k < |xs| :: xs[k] < x && ExecutionDue(db, xs[k], cutoff)
        invariant forall y | 0 <= y < x && ExecutionDue(db, y, cutoff) :: y in xs || y in locked
      {
        if ExecutionDue(db, x, cutoff) && x !in locked {
          xs := xs + [x];
        }
        x := x + 1;
      }
    }

    /**
     * `recover_stuck_work_once`: one transaction over all due rows that nobody has locked. Without
     * locked rows, once every timeout has passed, no incident stays DIAGNOSING or REMEDIATING.
     */
    method RecoverStuckWorkOnce(
      now: int, runTimeout: int, executionTimeout: int, lockedRuns: set<Id>, lockedExecutions: set<Id>)
      returns (runsFailed: nat, executionsFailed: nat)
      requires Valid()
      modifies this
      ensures Valid()
      ensures exists rs, xs | |rs| == runsFailed && |xs| == executionsFailed ::
                && Sweepable(old(db), rs, xs, now - runTimeout, now - executionTimeout)
                && db == D.Recover(old(db), rs, xs)
      ensures lockedRuns == {} && lockedExecutions == {}
              && old(StartedBefore(db, now - runTimeout, now - executionTimeout)) ==>
                forall i | 0 <= i < |db.incidents| :: !db.incidents[i].Diagnosing? && !db.incidents[i].Remediating?
    {
      var runCutoff, executionCutoff := now - runTimeout, now - executionTimeout;
      var rs := DueRuns(runCutoff, lockedRuns);
      var xs := DueExecutions(executionCutoff, lockedExecutions);
      RecoverKeeps(Now(), rs, xs, runCutoff, executionCutoff);
      var session := SweepRuns(db, rs);
      session := SweepExecutions(session, xs);
      if lockedRuns == {} && lockedExecutions == {} && StartedBefore(db, runCutoff, executionCutoff) {
        SweepClears(db, rs, xs, runCutoff, executionCutoff);
      }
      db := session;
      return |rs|, |xs|;
    }
  }

  /** An approval task about plan `p`. */
  predicate AsksApproval(task: TaskRow, p: Id, statuses: set<TaskStatus>) {
    task.kind == Approval && task.related == Some(APlan(p)) && task.status in statuses
  }

  predicate StartedBefore(db: Db, runCutoff: int, executionCutoff: int) {
    && (forall r | 0 <= r < |db.runs| && db.runs[r].startedAt.Some? :: db.runs[r].startedAt.value <= runCutoff)
    && (forall x | 0 <= x < |db.executions| && db.executions[x].startedAt.Some? ::
          db.executions[x].startedAt.value <= executionCutoff)
  }

  lemma KeyIsUnique(db: Db, x: Id)
    requires Inv(db) && x < |db.executions|
    ensures forall y | 0 <= y < |db.executions| && db.executions[y].key == db.executions[x].key :: y == x
  {
    assert forall y | 0 <= y < x :: db.executions[y].key != db.executions[x].key;
  }

  /** The rows written when a diagnosis begins; only a queued run may begin. */
  method BeginDiagnosisRows(db: Db, r: Id) returns (session: Result<Db, Error>)
    requires RefsOk(db)
    ensures session == D.BeginDiagnosis(db, r)
    ensures session.Ok? <==> r < |db.runs| && db.runs[r].status.Queued?
  {
    if r >= |db.runs| {
      return Err(NotFound);
    }
    if !db.runs[r].status.Queued? {
      return Err(InvalidTransition);
    }
    var i, rows := db.runs[r].incident, StartRun(SetRun(db, r, Collecting), r);
    if rows.incidents[i].Open? || rows.incidents[i].Failed? {
      rows := SetIncident(rows, i, IncidentStatus.Diagnosing);
    }
    return Ok(rows);
  }

  /** The loop of the sweep over runs. */
  method SweepRuns(db: Db, rs: seq<Id>) returns (session: Db)
    requires RefsOk(db) && Below(rs, |db.runs|)
    ensures session == RecoverRuns(db, rs)
  {
    session := db;
    var k := 0;
    while k < |rs|
      invariant 0 <= k <= |rs|
      invariant session == RecoverRuns(db, rs[..k])
    {
      var r := rs[k];
      var i, core := session.runs[r].incident, session.runs[r].status.Running?;
      session := SetRun(session, r, if core then Stopped else RunStatus.Failed);
      if session.incidents[i].Diagnosing? {
        session := SetIncident(session, i, IncidentStatus.Failed);
      }
      if core {
        session := AddTask(session, i, ManualCheck, Some(ARun(r)));
      }
      assert rs[..k + 1][..k] == rs[..k];
      k := k + 1;
    }
    assert rs[..k] == rs;
  }

  /** The loop of the sweep over executions. */
  method SweepExecutions(db: Db, xs: seq<Id>) returns (session: Db)
    requires RefsOk(db) && Below(xs, |db.executions|)
    ensures session == RecoverExecutions(db, xs)
  {
    session := db;
    var k := 0;
    while k < |xs|
      invariant 0 <= k <= |xs|
      invariant session == RecoverExecutions(db, xs[..k])
    {
      var x := xs[k];
      var i := IncidentOf(session, x);
      session := SetExecution(session, x, ExecutionStatus.Failed);
      if session.incidents[i].Remediating? || session.incidents[i].Verifying? {
        session := SetIncident(session, i, IncidentStatus.Failed);
      }
      session := AddTask(session, i, Verification, Some(AnExecution(x)));
      assert xs[..k + 1][..k] == xs[..k];
      k := k + 1;
    }
    assert xs[..k] == xs;
  }
}
