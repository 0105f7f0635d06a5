/** What holds in every reachable world of remediation, and along every run. */
module RemediationGuarantees {
  import opened Common
  import opened Domain
  import opened OpsDatabase
  import opened OpsInvariants
  import opened Remediation
  import opened RemediationInvariants
  import D = OpsDatabase

  lemma EmptyWorldOk(s: World)
    requires Empty(s)
    ensures WorldOk(s)
  {
  }

  lemma {:induction false} RunKeepsWorld(s: World, trace: seq<Action>)
    requires WorldOk(s) && Run(s, trace).Some?
    ensures Keeps(s, Run(s, trace).value)
    decreases |trace|
  {
    if trace != [] {
      var next := Step(s, trace[0]).value;
      StepKeepsWorld(s, trace[0]);
      RunKeepsWorld(next, trace[1..]);
      EvolvesTransitive(s.db, next.db, Run(s, trace).value.db);
    }
  }

  lemma ReachableWorldOk(s: World)
    requires Reachable(s)
    ensures WorldOk(s)
  {
    var init, trace :| Empty(init) && Run(init, trace) == Some(s);
    EmptyWorldOk(init);
    RunKeepsWorld(init, trace);
  }

  // ---- Status writes ----

  lemma {:induction false} HistoryPrefix(log: seq<Write>, k: nat, e: Entity)
    requires k < |log| && log[k].entity == e
    ensures HistoryOf(log[..k], e) + [log[k].to] <= HistoryOf(log, e)
    decreases |log|
  {
    var last := |log| - 1;
    if k < last {
      HistoryPrefix(log[..last], k, e);
      assert log[..last][..k] == log[..k];
    }
  }

  lemma {:induction false} PathSteps(from: Status, before: seq<Status>, to: Status, path: seq<Status>)
    requires Path(from, path) && before + [to] <= path
    ensures ValidTransition(LastOf(from, before), to)
    decreases |before|
  {
    if before != [] {
      assert path[0] == before[0] && before[1..] + [to] <= path[1..];
      PathSteps(path[0], before[1..], to, path[1..]);
    }
  }

  /**
   * Every status write, validated or not, was an edge of TRANSITIONS out of the status the row then
   * had, and every row has the status last written to it.
   */
  lemma EveryWriteIsAnEdge(s: World, k: nat)
    requires Reachable(s) && k < |s.db.log|
    ensures var e := s.db.log[k].entity;
            && Exists(s.db, e)
            && ValidTransition(LastOf(Initial(e), HistoryOf(s.db.log[..k], e)), s.db.log[k].to)
            && LastOf(Initial(e), HistoryOf(s.db.log, e)) == StatusOf(s.db, e)
  {
    ReachableWorldOk(s);
    var e := s.db.log[k].entity;
    assert Explained(s.db, e);
    HistoryPrefix(s.db.log, k, e);
    PathSteps(Initial(e), HistoryOf(s.db.log[..k], e), s.db.log[k].to, HistoryOf(s.db.log, e));
  }

  lemma {:induction false} PathSuffix(from: Status, path: seq<Status>, i: nat)
    requires Path(from, path) && i < |path|
    ensures Path(path[i], path[i + 1..])
    decreases i
  {
    if i > 0 {
      PathSuffix(path[0], path[1..], i - 1);
      assert path[1..][i - 1..][1..] == path[i + 1..];
    }
  }

  /** An execution enters RUNNING at most once, whatever is delivered, retried, failed or swept. */
  lemma RunningIsEnteredOnce(s: World, x: Id, i: nat, j: nat)
    requires Reachable(s) && x < |s.db.executions|
    requires var history := HistoryOf(s.db.log, AnExecution(x));
             i < j < |history| && history[i] == OfExecution(ExecutionStatus.Running)
    ensures HistoryOf(s.db.log, AnExecution(x))[j] != OfExecution(ExecutionStatus.Running)
  {
    ReachableWorldOk(s);
    var history := HistoryOf(s.db.log, AnExecution(x));
    assert Explained(s.db, AnExecution(x));
    PathSuffix(Initial(AnExecution(x)), history, i);
    ExecutionNeverRestarts(ExecutionStatus.Running, history[i + 1..], j - i - 1);
  }

  /** A finished run keeps its status for ever; AWAITING_HUMAN is never cancelled. */
  lemma FinishedRunsStay(s: World, trace: seq<Action>, r: Id)
    requires Reachable(s) && Run(s, trace).Some?
    requires r < |s.db.runs| && TerminalRun(s.db.runs[r].status)
    ensures r < |Run(s, trace).value.db.runs|
    ensures Run(s, trace).value.db.runs[r].status == s.db.runs[r].status
  {
    ReachableWorldOk(s);
    RunKeepsWorld(s, trace);
  }

  // ---- Deletions ----

  /** For one Idempotency-Key `delete_pod` is invoked at most once. */
  lemma OneDeletionPerKey(s: World, j: nat, k: nat)
    requires Reachable(s) && j < k < |s.deletions|
    ensures s.deletions[j].execution < |s.db.executions| && s.deletions[k].execution < |s.db.executions|
    ensures s.db.executions[s.deletions[j].execution].key != s.db.executions[s.deletions[k].execution].key
  {
    ReachableWorldOk(s);
    var x, y := s.deletions[j].execution, s.deletions[k].execution;
    if x > y {
      assert s.db.executions[y].key != s.db.executions[x].key;
    }
  }

  /** A plan gets past approval only through APPROVED. */
  lemma {:induction false} ApprovalOnPath(from: PlanStatus, path: seq<Status>)
    requires Path(OfPlan(from), path) && !PlanFixed(from) && !from.Approved?
    requires path != [] && path[|path| - 1].OfPlan? && PlanFixed(path[|path| - 1].plan)
    ensures OfPlan(Approved) in path
    decreases |path|
  {
    if path[0] != OfPlan(Approved) {
      ApprovalOnPath(path[0].plan, path[1..]);
    }
  }

  /**
   * Every deletion belongs to a plan whose dry run was allowed and that was approved; namespace, pod
   * name and uid are those of the dry run, and the uid is the one inspected.
   */
  lemma DeletionsAreAuthorised(s: World, k: nat)
    requires Reachable(s) && k < |s.deletions|
    ensures s.deletions[k].execution < |s.db.executions|
    ensures var p := s.db.executions[s.deletions[k].execution].plan;
            && p < |s.db.plans| && s.db.plans[p].dryRun.Some?
            && var dryRun := s.db.plans[p].dryRun.value;
               && dryRun.allowed && dryRun.inspection.Some?
               && DryRunAllows(dryRun.target, dryRun.inspection.value, dryRun.namespaces)
               && SamePod(s.deletions[k].target, dryRun.target)
               && s.deletions[k].target.podUid == dryRun.inspection.value.uid
               && OfPlan(Approved) in HistoryOf(s.db.log, APlan(p))
  {
    ReachableWorldOk(s);
    var p := s.db.executions[s.deletions[k].execution].plan;
    assert Explained(s.db, APlan(p));
    ApprovalOnPath(Draft, HistoryOf(s.db.log, APlan(p)));
  }

  // ---- Plans ----

  /**
   * A plan is EXECUTED exactly when precisely one of its executions succeeded or failed verification;
   * otherwise none did.
   */
  lemma PlanExecutedIffOneOutcome(s: World, p: Id)
    requires Reachable(s) && p < |s.db.plans|
    ensures s.db.plans[p].status.Executed? <==>
              exists x | 0 <= x < |s.db.executions| ::
                && s.db.executions[x].plan == p && Settled(s.db.executions[x].status)
                && forall y | 0 <= y < |s.db.executions| && y != x ::
                     !(s.db.executions[y].plan == p && Settled(s.db.executions[y].status))
    ensures !s.db.plans[p].status.Executed? ==>
              forall x | 0 <= x < |s.db.executions| :: s.db.executions[x].plan == p ==> !Settled(s.db.executions[x].status)
  {
    ReachableWorldOk(s);
    var db := s.db;
    assert db.plans[p].status.Executed? <==> HasOutcome(db, p);
    if HasOutcome(db, p) {
      var x :| 0 <= x < |db.executions| && db.executions[x].plan == p && Settled(db.executions[x].status);
      forall y | 0 <= y < |db.executions| && y != x
        ensures !(db.executions[y].plan == p && Settled(db.executions[y].status))
      {
        if y < x {
          assert !(Settled(db.executions[y].status) && db.executions[y].plan == db.executions[x].plan);
        }
      }
    }
  }

  // ---- No stranded work ----

  /** A DIAGNOSING incident has an active run that started, a REMEDIATING one a RUNNING execution that started. */
  lemma NoStrandedWork(s: World, i: Id)
    requires Reachable(s) && i < |s.db.incidents|
    ensures s.db.incidents[i].Diagnosing? ==>
              exists r | 0 <= r < |s.db.runs| ::
                s.db.runs[r].incident == i && ActiveRun(s.db.runs[r].status) && s.db.runs[r].startedAt.Some?
    ensures s.db.incidents[i].Remediating? ==>
              exists x | 0 <= x < |s.db.executions| ::
                && s.db.executions[x].status.Running? && s.db.executions[x].startedAt.Some?
                && s.db.executions[x].plan < |s.db.plans| && s.db.plans[s.db.executions[x].plan].incident == i
  {
    ReachableWorldOk(s);
    var db := s.db;
    if db.incidents[i].Diagnosing? {
      var r :| 0 <= r < |db.runs| && db.runs[r].incident == i && ActiveRun(db.runs[r].status);
      assert db.runs[r].startedAt.Some?;
    }
    if db.incidents[i].Remediating? {
      var x :| 0 <= x < |db.executions| && db.executions[x].status.Running? && IncidentOf(db, x) == i;
      assert db.executions[x].startedAt.Some?;
    }
  }

  /** An incident that is PLAN_READY has a plan to dry-run; one that awaits approval has one to decide on or execute. */
  lemma WaitingIncidentHasAPlan(s: World, i: Id)
    requires Reachable(s) && i < |s.db.incidents|
    ensures s.db.incidents[i].PlanReady? ==>
              exists p | 0 <= p < |s.db.plans| :: s.db.plans[p].incident == i && s.db.plans[p].status.Draft?
    ensures s.db.incidents[i].AwaitingApproval? ==>
              exists p | 0 <= p < |s.db.plans| ::
                s.db.plans[p].incident == i && (s.db.plans[p].status.AwaitingApproval? || s.db.plans[p].status.Executable?)
  {
    ReachableWorldOk(s);
    assert PlannedAt(s.db, i);
    if s.db.incidents[i].PlanReady? {
      var p :| 0 <= p < |s.db.plans| && s.db.plans[p].incident == i && s.db.plans[p].status in {Draft};
      assert s.db.plans[p].status.Draft?;
    }
    if s.db.incidents[i].AwaitingApproval? {
      var p :| 0 <= p < |s.db.plans| && s.db.plans[p].incident == i
            && s.db.plans[p].status in {PlanStatus.AwaitingApproval, Executable};
      assert s.db.plans[p].status.AwaitingApproval? || s.db.plans[p].status.Executable?;
    }
  }

  /** Every timeout has passed, and the sweep's queries returned every due row. */
  ghost predicate CompleteSweep(db: Db, rs: seq<Id>, xs: seq<Id>, runCutoff: int, executionCutoff: int) {
    && Sweepable(db, rs, xs, runCutoff, executionCutoff)
    && (forall r | 0 <= r < |db.runs| && RunDue(db, r, runCutoff) :: r in rs)
    && (forall x | 0 <= x < |db.executions| && ExecutionDue(db, x, executionCutoff) :: x in xs)
    && (forall r | 0 <= r < |db.runs| && db.runs[r].startedAt.Some? :: db.runs[r].startedAt.value <= runCutoff)
    && (forall x | 0 <= x < |db.executions| && db.executions[x].startedAt.Some? ::
          db.executions[x].startedAt.value <= executionCutoff)
  }

  lemma SweepClears(db: Db, rs: seq<Id>, xs: seq<Id>, runCutoff: int, executionCutoff: int)
    requires Inv(db) && CompleteSweep(db, rs, xs, runCutoff, executionCutoff)
    ensures var db' := D.Recover(db, rs, xs);
            forall i | 0 <= i < |db'.incidents| :: !db'.incidents[i].Diagnosing? && !db'.incidents[i].Remediating?
  {
    RecoverOk(db, rs, xs, runCutoff, executionCutoff);
    var db' := D.Recover(db, rs, xs);
    forall r | 0 <= r < |db'.runs| ensures !ActiveRun(db'.runs[r].status) {
      if ActiveRun(db.runs[r].status) {
        assert RunDue(db, r, runCutoff);
      }
    }
    forall x | 0 <= x < |db'.executions| ensures !db'.executions[x].status.Running? {
      if db.executions[x].status.Running? {
        assert ExecutionDue(db, x, executionCutoff);
      }
    }
    forall i | 0 <= i < |db'.incidents| ensures !db'.incidents[i].Diagnosing? && !db'.incidents[i].Remediating? {
      assert db'.incidents[i].Diagnosing? ==> HasRun(db', i);
      assert db'.incidents[i].Remediating? ==> HasExecution(db', i);
    }
  }

  /** One such sweep leaves no incident DIAGNOSING or REMEDIATING. */
  lemma SweepClearsEverything(s: World, rs: seq<Id>, xs: seq<Id>, runCutoff: int, executionCutoff: int)
    requires Reachable(s) && RefsOk(s.db) && CompleteSweep(s.db, rs, xs, runCutoff, executionCutoff)
    ensures var swept := Step(s, Action.Recover(rs, xs, runCutoff, executionCutoff));
            && swept.Some?
            && forall i | 0 <= i < |swept.value.db.incidents| ::
                 !swept.value.db.incidents[i].Diagnosing? && !swept.value.db.incidents[i].Remediating?
  {
    ReachableWorldOk(s);
    SweepClears(s.db, rs, xs, runCutoff, executionCutoff);
  }

  lemma {:induction false} SweptRunsLeaveVerifying(db: Db, rs: seq<Id>, i: Id)
    requires RefsOk(db) && Below(rs, |db.runs|) && i < |db.incidents|
    ensures var swept := RecoverRuns(db, rs);
            && |swept.incidents| == |db.incidents| && swept.executions == db.executions && swept.plans == db.plans
            && (swept.incidents[i].Verifying? <==> db.incidents[i].Verifying?)
    decreases |rs|
  {
    if rs != [] {
      SweptRunsLeaveVerifying(db, rs[..|rs| - 1], i);
    }
  }

  lemma {:induction false} SweptExecutionsEndVerifying(db: Db, xs: seq<Id>, i: Id)
    requires RefsOk(db) && Below(xs, |db.executions|) && i < |db.incidents|
    ensures var swept := RecoverExecutions(db, xs);
            && |swept.incidents| == |db.incidents| && swept.plans == db.plans
            && (forall x | 0 <= x < |db.executions| :: swept.executions[x].plan == db.executions[x].plan)
            && (swept.incidents[i].Verifying? <==>
                  db.incidents[i].Verifying? && forall k | 0 <= k < |xs| :: IncidentOf(db, xs[k]) != i)
    decreases |xs|
  {
    if xs != [] {
      SweptExecutionsEndVerifying(db, xs[..|xs| - 1], i);
    }
  }

  /**
   * Of the VERIFYING incidents a complete sweep ends those with a RUNNING execution and leaves every
   * other: an incident that an alert put there has nobody left to move it when its process died.
   */
  lemma SweepLeavesVerifyingIff(
    db: Db, rs: seq<Id>, xs: seq<Id>, runCutoff: int, executionCutoff: int, i: Id)
    requires Inv(db) && CompleteSweep(db, rs, xs, runCutoff, executionCutoff) && i < |db.incidents|
    ensures |D.Recover(db, rs, xs).incidents| == |db.incidents|
    ensures D.Recover(db, rs, xs).incidents[i].Verifying? <==> db.incidents[i].Verifying? && !HasExecution(db, i)
  {
    SweptRunsLeaveVerifying(db, rs, i);
    var swept := RecoverRuns(db, rs);
    SweptExecutionsEndVerifying(swept, xs, i);
    if HasExecution(db, i) {
      var x :| 0 <= x < |db.executions| && db.executions[x].status.Running? && IncidentOf(db, x) == i;
      assert ExecutionDue(db, x, executionCutoff);
      var k :| 0 <= k < |xs| && xs[k] == x;
      assert IncidentOf(swept, xs[k]) == i;
    } else {
      forall k | 0 <= k < |xs| ensures IncidentOf(swept, xs[k]) != i {
        assert ExecutionDue(db, xs[k], executionCutoff);
      }
    }
  }

  lemma {:induction false} RunThen(s: World, trace: seq<Action>, a: Action)
    requires Run(s, trace).Some? && RefsOk(Run(s, trace).value.db)
    ensures Run(s, trace + [a]) == Step(Run(s, trace).value, a)
    decreases |trace|
  {
    if trace == [] {
      assert [a][1..] == [];
    } else {
      assert (trace + [a])[1..] == trace[1..] + [a];
      RunThen(Step(s, trace[0]).value, trace[1..], a);
    }
  }

  lemma ReachableStep(s: World, a: Action)
    requires Reachable(s) && RefsOk(s.db) && Step(s, a).Some?
    ensures Reachable(Step(s, a).value)
  {
    var init, trace :| Empty(init) && Run(init, trace) == Some(s);
    RunThen(init, trace, a);
  }

  const NOTHING := World(Db([], [], [], [], [], [], 0), map[], [])

  lemma Reported()
    ensures Step(NOTHING, Action.AddIncident) == Some(NOTHING.(db := NOTHING.db.(incidents := [Open])))
  {
    assert NOTHING.db.incidents + [Open] == [Open];
  }

  lemma Received(s: World)
    requires s == NOTHING.(db := NOTHING.db.(incidents := [Open]))
    ensures var next := Step(s, Action.ReceiveResolved(0, 0));
            && next.Some? && next.value.db.incidents == [Verifying]
            && next.value.db.runs == [] && next.value.db.executions == []
            && next.value.db.tasks == [] && next.value.db.plans == [] && next.value.workers.Keys == {0}
  {
  }

  /**
   * Such an incident is reachable: when the process that verifies an alert dies, the incident stays
   * VERIFYING with every worker idle and no row the sweep would ever find due.
   */
  lemma VerifyingCanStrand() returns (s: World)
    ensures Reachable(s) && s.db.incidents == [Verifying]
    ensures forall w | w in s.workers :: s.workers[w].Idle?
    ensures forall id, cutoff :: !RunDue(s.db, id, cutoff) && !ExecutionDue(s.db, id, cutoff)
  {
    assert Run(NOTHING, []) == Some(NOTHING);
    Reported();
    ReachableStep(NOTHING, Action.AddIncident);
    var reported := NOTHING.(db := NOTHING.db.(incidents := [Open]));
    s := AlertDies(reported);
  }

  lemma AlertDies(reported: World) returns (s: World)
    requires Reachable(reported) && reported == NOTHING.(db := NOTHING.db.(incidents := [Open]))
    ensures Reachable(s) && s.db.incidents == [Verifying] && s.db.runs == [] && s.db.executions == []
    ensures forall w | w in s.workers :: s.workers[w].Idle?
  {
    Received(reported);
    var received := Step(reported, Action.ReceiveResolved(0, 0)).value;
    ReachableStep(reported, Action.ReceiveResolved(0, 0));
    s := WorkerDies(received, 0);
  }

  lemma WorkerDies(s: World, w: WorkerId) returns (s': World)
    requires Reachable(s) && RefsOk(s.db)
    ensures Reachable(s') && s' == Goto(s, w, Idle)
  {
    s' := Goto(s, w, Idle);
    assert Step(s, Action.Die(w)) == Some(s');
    ReachableStep(s, Action.Die(w));
  }
}
