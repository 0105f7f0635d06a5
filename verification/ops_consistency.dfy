/** Every transaction keeps incidents, runs, plans and executions consistent with each other. */
module OpsConsistency {
  import opened Common
  import opened Domain
  import opened OpsDatabase
  import opened OpsInvariants

  // ---- Frames: what a transaction around one incident has to provide ----

  /** Only incident `i` may have come to DIAGNOSING, and only its runs may have changed. */
  lemma DiagnosingKept(db: Db, db': Db, i: Id)
    requires DiagnosingOwned(db) && |db.runs| <= |db'.runs|
    requires forall r | 0 <= r < |db.runs| && db.runs[r].incident != i :: db'.runs[r] == db.runs[r]
    requires forall j | 0 <= j < |db'.incidents| && j != i && db'.incidents[j].Diagnosing? ::
               j < |db.incidents| && db.incidents[j].Diagnosing?
    requires i < |db'.incidents| && db'.incidents[i].Diagnosing? ==> HasRun(db', i)
    ensures DiagnosingOwned(db')
  {
    forall j | 0 <= j < |db'.incidents| && db'.incidents[j].Diagnosing? ensures HasRun(db', j) {
      if j != i {
        var r :| 0 <= r < |db.runs| && db.runs[r].incident == j && ActiveRun(db.runs[r].status);
        assert db'.runs[r] == db.runs[r];
      }
    }
  }

  /** The same for REMEDIATING and executions. */
  lemma RemediatingKept(db: Db, db': Db, i: Id)
    requires RefsOk(db) && RefsOk(db') && RemediatingOwned(db) && |db.executions| <= |db'.executions|
    requires forall x | 0 <= x < |db.executions| && IncidentOf(db, x) != i ::
               db'.executions[x] == db.executions[x] && IncidentOf(db', x) == IncidentOf(db, x)
    requires forall j | 0 <= j < |db'.incidents| && j != i && db'.incidents[j].Remediating? ::
               j < |db.incidents| && db.incidents[j].Remediating?
    requires i < |db'.incidents| && db'.incidents[i].Remediating? ==> HasExecution(db', i)
    ensures RemediatingOwned(db')
  {
    forall j | 0 <= j < |db'.incidents| && db'.incidents[j].Remediating? ensures HasExecution(db', j) {
      if j != i {
        var x :| 0 <= x < |db.executions| && db.executions[x].status.Running? && IncidentOf(db, x) == j;
        assert db'.executions[x] == db.executions[x] && IncidentOf(db', x) == j;
      }
    }
  }

  predicate WaitsForPlan(s: IncidentStatus) { s.PlanReady? || s.AwaitingApproval? }

  /** Only the plans of incident `i` may have changed, and no other incident came to wait for one. */
  lemma PlannedKept(db: Db, db': Db, i: Id)
    requires Planned(db) && |db.plans| <= |db'.plans|
    requires forall p | 0 <= p < |db.plans| && db.plans[p].incident != i :: db'.plans[p] == db.plans[p]
    requires forall j | 0 <= j < |db'.incidents| && j != i && WaitsForPlan(db'.incidents[j]) ::
               j < |db.incidents| && db.incidents[j] == db'.incidents[j]
    requires i < |db'.incidents| ==> PlannedAt(db', i)
    ensures Planned(db')
  {
    forall j | 0 <= j < |db'.incidents| ensures PlannedAt(db', j) {
      if j != i && WaitsForPlan(db'.incidents[j]) {
        assert PlannedAt(db, j);
        var p :| 0 <= p < |db.plans| && db.plans[p].incident == j
              && db.plans[p].status in
                   (if db.incidents[j].PlanReady? then {Draft} else {PlanStatus.AwaitingApproval, Executable});
        assert db'.plans[p] == db.plans[p];
      }
    }
  }

  /** The same plans serve an incident that did not start to wait. */
  lemma PlannedSame(db: Db, db': Db, i: Id)
    requires Planned(db) && db'.plans == db.plans && i < |db.incidents| && i < |db'.incidents|
    requires WaitsForPlan(db'.incidents[i]) ==> db'.incidents[i] == db.incidents[i]
    ensures PlannedAt(db', i)
  {
    assert PlannedAt(db, i);
  }

  /** Only the executions and the status of plan `p` may have changed. */
  lemma AccountedKept(db: Db, db': Db, p: Id)
    requires RefsOk(db) && RefsOk(db') && Accounted(db)
    requires |db'.executions| == |db.executions| && |db'.plans| == |db.plans|
    requires forall x | 0 <= x < |db.executions| ::
               db'.executions[x].plan == db.executions[x].plan
               && (db.executions[x].plan != p ==> db'.executions[x] == db.executions[x])
    requires forall q | 0 <= q < |db.plans| && q != p :: db'.plans[q].status == db.plans[q].status
    requires p < |db'.plans| ==> (db'.plans[p].status.Executed? <==> HasOutcome(db', p))
    requires forall x, y | 0 <= x < y < |db'.executions| && db'.executions[x].plan == p && db'.executions[y].plan == p ::
               !(Settled(db'.executions[x].status) && Settled(db'.executions[y].status))
    ensures Accounted(db')
  {
    forall q | 0 <= q < |db'.plans| ensures db'.plans[q].status.Executed? <==> HasOutcome(db', q) {
      if q != p {
        if x :| 0 <= x < |db.executions| && db.executions[x].plan == q && Settled(db.executions[x].status) {
          assert db'.executions[x] == db.executions[x];
        }
        if x :| 0 <= x < |db'.executions| && db'.executions[x].plan == q && Settled(db'.executions[x].status) {
          assert db'.executions[x] == db.executions[x];
        }
      }
    }
  }

  /** A transaction on run `r` and its incident. */
  lemma RunTx(db: Db, db': Db, r: Id)
    requires Consistent(db) && RefsOk(db') && r < |db.runs| && |db'.runs| == |db.runs|
    requires db'.plans == db.plans && db'.executions == db.executions
    requires db'.runs == db.runs[r := db'.runs[r]] && db'.runs[r].incident == db.runs[r].incident
    requires ActiveRun(db'.runs[r].status) ==> db'.runs[r].startedAt.Some?
    requires var i := db.runs[r].incident;
             && |db'.incidents| == |db.incidents| && db'.incidents == db.incidents[i := db'.incidents[i]]
             && (db'.incidents[i].Diagnosing? ==> HasRun(db', i))
             && (db'.incidents[i].Remediating? ==> db.incidents[i].Remediating?)
             && (WaitsForPlan(db'.incidents[i]) ==> db'.incidents[i] == db.incidents[i])
    ensures Consistent(db')
  {
    var i := db.runs[r].incident;
    PlannedSame(db, db', i);
    PlannedKept(db, db', i);
    DiagnosingKept(db, db', i);
    assert db'.incidents[i].Remediating? ==> HasExecution(db', i) by {
      if db'.incidents[i].Remediating? {
        var x :| 0 <= x < |db.executions| && db.executions[x].status.Running? && IncidentOf(db, x) == i;
        assert IncidentOf(db', x) == i;
      }
    }
    RemediatingKept(db, db', i);
    AccountedSame(db, db');
  }

  lemma AccountedSame(db: Db, db': Db)
    requires RefsOk(db) && RefsOk(db') && Accounted(db) && db'.executions == db.executions && |db.plans| <= |db'.plans|
    requires forall p | 0 <= p < |db.plans| :: db'.plans[p].status.Executed? == db.plans[p].status.Executed?
    requires forall p | |db.plans| <= p < |db'.plans| :: !db'.plans[p].status.Executed?
    ensures Accounted(db')
  {
    forall p | 0 <= p < |db'.plans| ensures db'.plans[p].status.Executed? <==> HasOutcome(db', p) {
      if p < |db.plans| {
        assert HasOutcome(db', p) <==> HasOutcome(db, p);
      }
    }
  }

  /** A transaction that moves incident `i` out of the owned statuses and no run or execution. */
  lemma PlanTx(db: Db, db': Db, i: Id)
    requires Consistent(db) && RefsOk(db') && db'.runs == db.runs && db'.executions == db.executions
    requires |db.plans| <= |db'.plans|
    requires forall p | 0 <= p < |db.plans| ::
               db'.plans[p].incident == db.plans[p].incident && (db.plans[p].incident != i ==> db'.plans[p] == db.plans[p])
    requires i < |db.incidents| && |db'.incidents| == |db.incidents| && db'.incidents == db.incidents[i := db'.incidents[i]]
    requires db'.incidents[i] == db.incidents[i] || (!db'.incidents[i].Diagnosing? && !db'.incidents[i].Remediating?)
    requires Authorised(db') && Accounted(db') && PlannedAt(db', i)
    ensures Consistent(db')
  {
    PlannedKept(db, db', i);
    assert HasRun(db', i) <==> HasRun(db, i);
    assert HasExecution(db', i) <==> HasExecution(db, i) by {
      forall x | 0 <= x < |db.executions| ensures IncidentOf(db', x) == IncidentOf(db, x) {}
    }
    DiagnosingKept(db, db', i);
    RemediatingKept(db, db', i);
  }

  /** A transaction on execution `x` and its incident. */
  lemma ExecutionTx(db: Db, db': Db, x: Id)
    requires Consistent(db) && RefsOk(db') && x < |db.executions| && |db'.executions| == |db.executions|
    requires db'.runs == db.runs
    requires |db.plans| == |db'.plans|
    requires forall p | 0 <= p < |db.plans| ::
               db'.plans[p].incident == db.plans[p].incident
               && (db.plans[p].incident != IncidentOf(db, x) ==> db'.plans[p] == db.plans[p])
    requires db'.executions == db.executions[x := db'.executions[x]]
    requires db'.executions[x].plan == db.executions[x].plan
    requires db'.executions[x].status.Running? ==> db'.executions[x].startedAt.Some?
    requires var i := IncidentOf(db, x);
             && |db'.incidents| == |db.incidents| && db'.incidents == db.incidents[i := db'.incidents[i]]
             && (db'.incidents[i].Diagnosing? ==> db.incidents[i].Diagnosing?)
             && (db'.incidents[i].Remediating? ==> db'.executions[x].status.Running?)
             && PlannedAt(db', i)
    requires Authorised(db') && Accounted(db')
    ensures Consistent(db')
  {
    var i := IncidentOf(db, x);
    PlannedKept(db, db', i);
    assert HasRun(db', i) <==> HasRun(db, i);
    DiagnosingKept(db, db', i);
    assert IncidentOf(db', x) == i;
    RemediatingKept(db, db', i);
  }

  // ---- Transactions ----

  lemma FinishRunConsistent(db: Db, r: Id, to: RunStatus)
    requires Consistent(db) && r < |db.runs| && TerminalRun(to)
    ensures Consistent(FinishRun(db, r, to))
  {
    RunTx(db, FinishRun(db, r, to), r);
  }

  lemma RequestCancelConsistent(db: Db, r: Id)
    requires Consistent(db) && RequestCancel(db, r).Ok?
    ensures Consistent(RequestCancel(db, r).value)
  {
    var db', i := RequestCancel(db, r).value, db.runs[r].incident;
    if db.incidents[i].Diagnosing? {
      var active :| 0 <= active < |db.runs| && db.runs[active].incident == i && ActiveRun(db.runs[active].status);
      assert db'.runs[active] == db.runs[active];
    }
    RunTx(db, db', r);
  }

  lemma CreatePlanConsistent(db: Db, i: Id, target: PodTarget, wellFormed: bool)
    requires Consistent(db) && CreatePlan(db, i, target, wellFormed).Ok?
    ensures Consistent(CreatePlan(db, i, target, wellFormed).value)
  {
    var db' := CreatePlan(db, i, target, wellFormed).value;
    assert db'.plans[|db.plans|].status.Draft?;
    AccountedSame(db, db');
    PlanTx(db, db', i);
  }

  lemma DryRunPlanConsistent(db: Db, p: Id, inspection: Inspection, namespaces: set<string>)
    requires Consistent(db) && DryRunPlan(db, p, inspection, namespaces).Ok?
    ensures Consistent(DryRunPlan(db, p, inspection, namespaces).value)
  {
    var db' := DryRunPlan(db, p, inspection, namespaces).value;
    assert db'.incidents[db.plans[p].incident].AwaitingApproval? ==> db'.plans[p].status.AwaitingApproval?;
    AccountedSame(db, db');
    PlanTx(db, db', db.plans[p].incident);
  }

  /** Approving a plan keeps it among those its incident waits for. */
  lemma ApprovedPlanWaits(db: Db, db': Db, p: Id)
    requires Planned(db) && p < |db.plans| && |db'.plans| == |db.plans| && db'.incidents == db.incidents
    requires db.plans[p].incident < |db.incidents|
    requires db.plans[p].status.AwaitingApproval?
    requires db'.plans == db.plans[p := db.plans[p].(status := Executable)]
    ensures PlannedAt(db', db.plans[p].incident)
  {
    var i := db.plans[p].incident;
    assert PlannedAt(db, i);
    if db.incidents[i].PlanReady? {
      var q :| 0 <= q < |db.plans| && db.plans[q].incident == i && db.plans[q].status in {Draft};
      assert db'.plans[q] == db.plans[q];
    }
    if db.incidents[i].AwaitingApproval? {
      assert db'.plans[p].incident == i && db'.plans[p].status in {PlanStatus.AwaitingApproval, Executable};
    }
  }

  lemma ApprovePlanConsistent(db: Db, p: Id, task: Option<Id>)
    requires Consistent(db) && (task.Some? ==> task.value < |db.tasks|) && ApprovePlan(db, p, task).Ok?
    ensures Consistent(ApprovePlan(db, p, task).value)
  {
    var db' := ApprovePlan(db, p, task).value;
    AccountedSame(db, db');
    ApprovedPlanWaits(db, db', p);
    PlanTx(db, db', db.plans[p].incident);
  }

  lemma RejectPlanConsistent(db: Db, p: Id, task: Option<Id>)
    requires Consistent(db) && (task.Some? ==> task.value < |db.tasks|) && RejectPlan(db, p, task).Ok?
    ensures Consistent(RejectPlan(db, p, task).value)
  {
    var db' := RejectPlan(db, p, task).value;
    AccountedSame(db, db');
    PlanTx(db, db', db.plans[p].incident);
  }

  /** A new execution is not settled and nobody's owner. */
  lemma AddExecution(db: Db, db': Db, row: ExecutionRow)
    requires Consistent(db) && row.plan < |db.plans| && db.plans[row.plan].status.Executable? && row.status.Prepared?
    requires forall x | 0 <= x < |db.executions| :: db.executions[x].key != row.key
    requires db' == db.(executions := db.executions + [row])
    ensures Consistent(db')
  {
    assert forall x | 0 <= x < |db.executions| :: db'.executions[x] == db.executions[x];
    DiagnosingKept(db, db', |db.incidents|);
    RemediatingKept(db, db', |db.incidents|);
    AuthorisedBeside(db, db', row);
    PlannedKept(db, db', |db.incidents|);
    AccountedBeside(db, db');
  }

  lemma AuthorisedBeside(db: Db, db': Db, row: ExecutionRow)
    requires RefsOk(db) && RefsOk(db') && Authorised(db) && db'.plans == db.plans
    requires db'.executions == db.executions + [row] && row.plan < |db.plans|
    requires db.plans[row.plan].status.Executable?
    requires forall x | 0 <= x < |db.executions| :: db.executions[x].key != row.key
    ensures Authorised(db')
  {
  }

  lemma AccountedBeside(db: Db, db': Db)
    requires RefsOk(db) && RefsOk(db') && Accounted(db) && db'.plans == db.plans && |db'.executions| == |db.executions| + 1
    requires forall x | 0 <= x < |db.executions| :: db'.executions[x] == db.executions[x]
    requires !Settled(db'.executions[|db.executions|].status)
    ensures Accounted(db')
  {
    forall q | 0 <= q < |db'.plans| ensures HasOutcome(db', q) <==> HasOutcome(db, q) {
      if x :| 0 <= x < |db.executions| && db.executions[x].plan == q && Settled(db.executions[x].status) {
        assert db'.executions[x] == db.executions[x];
      }
    }
  }

  lemma BeginExecutionConsistent(db: Db, x: Id)
    requires Consistent(db) && BeginExecution(db, x).Ok?
    ensures Consistent(BeginExecution(db, x).value)
  {
    var db' := BeginExecution(db, x).value;
    AccountedKept(db, db', db.executions[x].plan);
    ExecutionTx(db, db', x);
  }

  lemma RecordFailureConsistent(db: Db, x: Id)
    requires Consistent(db) && x < |db.executions| && RecordFailure(db, x).Ok?
    ensures Consistent(RecordFailure(db, x).value)
  {
    var db' := RecordFailure(db, x).value;
    AccountedKept(db, db', db.executions[x].plan);
    ExecutionTx(db, db', x);
  }

  lemma RecordSuccessShape(db: Db, x: Id)
    requires RefsOk(db) && x < |db.executions| && RecordSuccess(db, x).Ok?
    ensures var db', i, p := RecordSuccess(db, x).value, IncidentOf(db, x), db.executions[x].plan;
            && RefsOk(db') && db'.runs == db.runs && db.plans[p].status.Executable?
            && db'.executions == db.executions[x := db.executions[x].(status := Succeeded)]
            && db'.plans == db.plans[p := db.plans[p].(status := Executed)]
            && db'.incidents == db.incidents[i := Verifying]
  {
  }

  lemma RecordSuccessConsistent(db: Db, x: Id)
    requires Consistent(db) && x < |db.executions| && RecordSuccess(db, x).Ok?
    ensures Consistent(RecordSuccess(db, x).value)
  {
    var db', p := RecordSuccess(db, x).value, db.executions[x].plan;
    RecordSuccessShape(db, x);
    assert !HasOutcome(db, p);
    assert db'.executions[x].plan == p && Settled(db'.executions[x].status);
    AccountedKept(db, db', p);
    ExecutionTx(db, db', x);
  }

  lemma RecordVerificationConsistent(db: Db, x: Id, healthy: bool)
    requires Consistent(db) && x < |db.executions| && RecordVerification(db, x, healthy).Ok?
    ensures Consistent(RecordVerification(db, x, healthy).value)
  {
    var db' := RecordVerification(db, x, healthy).value;
    AccountedKept(db, db', db.executions[x].plan);
    ExecutionTx(db, db', x);
  }

  lemma FailExecutionConsistent(db: Db, x: Id)
    requires Consistent(db) && FailExecution(db, x).Ok?
    ensures Consistent(FailExecution(db, x).value)
  {
    var db' := FailExecution(db, x).value;
    FailExecutionShape(db, x);
    PlannedSame(db, db', IncidentOf(db, x));
    var p := db.executions[x].plan;
    assert HasOutcome(db', p) <==> HasOutcome(db, p) by {
      if y :| 0 <= y < |db.executions| && db.executions[y].plan == p && Settled(db.executions[y].status) {
        assert db'.executions[y].plan == p && Settled(db'.executions[y].status);
      }
    }
    AccountedKept(db, db', p);
    ExecutionTx(db, db', x);
  }

  lemma FailExecutionShape(db: Db, x: Id)
    requires RefsOk(db) && FailExecution(db, x).Ok?
    ensures x < |db.executions|
    ensures var db', i := FailExecution(db, x).value, IncidentOf(db, x);
            && RefsOk(db') && db'.runs == db.runs && db'.plans == db.plans
            && db'.executions == db.executions[x := db.executions[x].(status := db'.executions[x].status)]
            && Settled(db'.executions[x].status) == Settled(db.executions[x].status)
            && !db'.executions[x].status.Running? && !db'.executions[x].status.Prepared?
            && |db'.incidents| == |db.incidents| && db'.incidents == db.incidents[i := db'.incidents[i]]
            && (db'.incidents[i] == db.incidents[i] || db'.incidents[i].Failed?) && !db'.incidents[i].Remediating?
  {
  }

  lemma ReceiveResolvedConsistent(db: Db, i: Id)
    requires Consistent(db) && i < |db.incidents| && ReceiveResolved(db, i).Ok?
    ensures Consistent(ReceiveResolved(db, i).value)
  {
    PlannedSame(db, ReceiveResolved(db, i).value, i);
    AccountedSame(db, ReceiveResolved(db, i).value);
    PlanTx(db, ReceiveResolved(db, i).value, i);
  }

  lemma ResolveIncidentConsistent(db: Db, i: Id, healthy: bool, task: Option<Id>)
    requires Consistent(db) && i < |db.incidents| && (task.Some? ==> task.value < |db.tasks|)
    requires ResolveIncident(db, i, healthy, task).Ok?
    ensures Consistent(ResolveIncident(db, i, healthy, task).value)
  {
    PlannedSame(db, ResolveIncident(db, i, healthy, task).value, i);
    AccountedSame(db, ResolveIncident(db, i, healthy, task).value);
    PlanTx(db, ResolveIncident(db, i, healthy, task).value, i);
  }

  lemma RecoverRunConsistent(db: Db, r: Id)
    requires Consistent(db) && r < |db.runs| && ActiveRun(db.runs[r].status)
    ensures Consistent(RecoverRun(db, r))
  {
    RunTx(db, RecoverRun(db, r), r);
  }

  lemma RecoverExecutionConsistent(db: Db, x: Id)
    requires Consistent(db) && x < |db.executions| && db.executions[x].status.Running?
    ensures Consistent(RecoverExecution(db, x))
  {
    var db' := RecoverExecution(db, x);
    PlannedSame(db, db', IncidentOf(db, x));
    AccountedKept(db, db', db.executions[x].plan);
    ExecutionTx(db, db', x);
  }
}
