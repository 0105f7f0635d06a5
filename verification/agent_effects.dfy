/**
 * What each transaction of AgentDatabase does to the rows of a run, column by column, and what the
 * decisions between them lead to: which reasons end a run, in which order they are looked at.
 */
module AgentEffects {
  import opened Common
  import opened Domain
  import opened ContextMemory
  import opened EvidenceOrder
  import opened ContextBuilder
  import opened AgentDecision
  import D = AgentDatabase
  import opened AgentDatabase
  import opened AgentRun

  predicate Over(status: RunStatus) {
    status in {Completed, AwaitingHuman, RunStatus.Stopped, RunStatus.Failed, RunStatus.Cancelled}
  }

  // ---- Run row ----

  /**
   * A finished run, or one leased to another worker beyond now, stays; any other is leased for thirty
   * seconds. A queued one starts: it gets its deadline unless it has one, and one alert row.
   */
  lemma ClaimEffect(db: Db, w: WorkerId, alert: Evidence)
    ensures var db', run := D.Claim(db, w, alert), db.run;
            var taken := run.leaseExpires.Some? && db.now < run.leaseExpires.value && run.leaseOwner !in {None, Some(w)};
            if Over(run.status) || taken then db' == db
            else
              && db' == db.(run := db'.run, evidence := db'.evidence)
              && db'.run == run.(leaseOwner := Some(w), leaseExpires := Some(db.now + 30), status := db'.run.status,
                                 startedAt := db'.run.startedAt, deadline := db'.run.deadline)
              && (if run.status.Queued? then
                    && db'.run.status.Running? && db'.run.startedAt == Some(db.now)
                    && db'.run.deadline == (if run.deadline.Some? then run.deadline else Some(db.now + run.timeout))
                    && (db'.evidence == db.evidence <==> exists e | e in db.evidence :: e.kind == AlertPayload)
                    && db'.evidence in {db.evidence, db.evidence + [alert]}
                  else
                    && db'.run.status == run.status && db'.run.startedAt == run.startedAt
                    && db'.run.deadline == run.deadline && db'.evidence == db.evidence)
  {
    assert db.evidence + [alert] != db.evidence by {
      assert |db.evidence + [alert]| == |db.evidence| + 1;
    }
  }

  /** Only a run that is not finished is finished; its lease ends and a diagnosis, if given, is kept. */
  lemma FinishEffect(db: Db, status: RunStatus, reason: string, diagnosis: Option<Diagnosis>)
    ensures var db', run := D.Finish(db, status, reason, diagnosis), db.run;
            if Over(run.status) then db' == db
            else
              && db' == db.(run := run.(status := status, stopReason := reason, leaseOwner := None, leaseExpires := None,
                                        diagnosis := db'.run.diagnosis))
              && (diagnosis.Some? ==> db'.run.diagnosis == diagnosis)
              && (diagnosis.None? ==> db'.run.diagnosis == run.diagnosis)
  {
  }

  /** A cancel is noted on any run that is not finished, and ends one that has not started. */
  lemma CancelEffect(db: Db)
    ensures var db', run := D.RequestCancel(db), db.run;
            && db' == db.(run := run.(cancelRequested := db'.run.cancelRequested, status := db'.run.status,
                                      stopReason := db'.run.stopReason))
            && (db'.run.cancelRequested <==> run.cancelRequested || !Over(run.status))
            && (run.status == Queued ==> db'.run.status.Cancelled? && db'.run.stopReason == "USER_CANCELLED")
            && (run.status != Queued ==> db'.run.status == run.status && db'.run.stopReason == run.stopReason)
  {
  }

  /** A job that raised fails a run that is not finished. */
  lemma FailRunEffect(db: Db)
    ensures D.FailRun(db) == db.(run := db.run.(status := if Over(db.run.status) then db.run.status else RunStatus.Failed))
  {
  }

  /** The sweep: a run that started by the cutoff and is under way ends, STOPPED when it was RUNNING. */
  lemma RecoverEffect(db: Db, cutoff: int)
    ensures var db', run := D.Recover(db, cutoff), db.run;
            var due := run.status in {RunStatus.Running, Collecting, RunStatus.Diagnosing}
                       && run.startedAt.Some? && run.startedAt.value <= cutoff;
            && (!due ==> db' == db)
            && (due ==>
                  db' == db.(run := run.(leaseOwner := None, leaseExpires := None,
                                         status := db'.run.status, stopReason := db'.run.stopReason)))
            && (due && run.status == RunStatus.Running ==>
                  db'.run.status.Stopped? && db'.run.stopReason == "WORKER_INTERRUPTED")
            && (due && run.status != RunStatus.Running ==>
                  db'.run.status.Failed? && db'.run.stopReason == "RUN_TIMEOUT")
  {
  }

  // ---- Step rows ----

  /** A free sequence gets one row: running, undecided, without a call. A taken one refuses. */
  lemma InsertEffect(db: Db, n: nat, w: WorkerId, conflicting: bool)
    ensures var result := D.InsertStep(db, n, w, conflicting);
            && (result.Ok? <==> n !in db.steps)
            && (result.Ok? ==>
                  && result.value == db.(steps := result.value.steps)
                  && result.value.steps.Keys == db.steps.Keys + {n}
                  && (forall k | k in db.steps :: result.value.steps[k] == db.steps[k])
                  && result.value.steps[n] == StepRow(w, conflicting, StepStatus.Running, None, "", [], "", None))
  {
  }

  /** Only row `n` changes. */
  predicate OnlyRow(db: Db, db': Db, n: nat) {
    && n in db.steps && db'.steps.Keys == db.steps.Keys
    && (forall k | k in db.steps && k != n :: db'.steps[k] == db.steps[k])
    && db'.evidence == db.evidence && db'.now == db.now
  }

  /** A decision is written into its own row, which keeps everything else. */
  lemma DecisionEffect(db: Db, n: nat, d: Decision)
    requires n in db.steps
    ensures var db' := D.RecordDecision(db, n, d);
            && OnlyRow(db, db', n) && db'.run == db.run
            && db'.steps[n].kind == Some(d.kind) && db'.steps[n].summary == d.summary
            && db'.steps[n].evidenceIds == d.evidenceIds
            && db'.steps[n] == db.steps[n].(kind := db'.steps[n].kind, summary := db'.steps[n].summary,
                                            evidenceIds := db'.steps[n].evidenceIds)
  {
  }

  /** A row gets its end; `advanced` tells whether the run goes on to it. */
  ghost predicate Closed(db: Db, db': Db, n: nat, status: StepStatus, code: string, advanced: bool) {
    && OnlyRow(db, db', n)
    && db'.steps[n].status == status && db'.steps[n].errorCode == code
    && db'.steps[n] == db.steps[n].(status := db'.steps[n].status, errorCode := db'.steps[n].errorCode)
    && db'.run == db.run.(currentStep := db'.run.currentStep)
    && db'.run.currentStep == if advanced then n else db.run.currentStep
  }

  lemma CloseEffect(db: Db, n: nat, status: StepStatus, code: string)
    requires n in db.steps
    ensures Closed(db, D.CloseStep(db, n, status, code), n, status, code, false)
    ensures Closed(db, D.AdvanceStep(db, n, status, code), n, status, code, true)
  {
  }

  // ---- Model accounting ----

  /** A reservation is charged; a settlement with known usage leaves the usage charged instead, and nothing else. */
  lemma AccountingEffect(db: Db, input: int, output: int, usage: Option<Usage>)
    ensures var reserved := D.Reserve(db, input, output);
            var settled := D.Settle(reserved, input, output, usage);
            && reserved == db.(run := db.run.(modelCallsUsed := db.run.modelCallsUsed + 1,
                                              inputUsed := reserved.run.inputUsed, outputUsed := reserved.run.outputUsed))
            && reserved.run.inputUsed - db.run.inputUsed == input && reserved.run.outputUsed - db.run.outputUsed == output
            && settled == reserved.(run := reserved.run.(inputUsed := settled.run.inputUsed,
                                                         outputUsed := settled.run.outputUsed))
            && settled.run.inputUsed - db.run.inputUsed == (if usage.Some? then usage.value.input else input)
            && settled.run.outputUsed - db.run.outputUsed == (if usage.Some? then usage.value.output else output)
  {
  }

  // ---- Tool calls ----

  /** The one invocation of a row: running, with the arguments as sent and as stored; the counter and the lease follow. */
  lemma StartEffect(db: Db, n: nat, tool: string, sent: Content, clean: Content)
    requires n in db.steps
    ensures var result := D.StartTool(db, n, tool, sent, clean);
            && (result.Ok? <==> db.steps[n].invocation.None?)
            && (result.Ok? ==>
                  var db' := result.value;
                  && OnlyRow(db, db', n)
                  && db'.steps[n] == db.steps[n].(invocation := db'.steps[n].invocation)
                  && db'.steps[n].invocation.Some?
                  && db'.steps[n].invocation.value == Invocation(tool, sent, clean, InvocationStatus.Running, None, "")
                  && db'.run.toolCallsUsed == db.run.toolCallsUsed + 1 && db'.run.leaseExpires == Some(db.now + 30)
                  && db'.run == db.run.(toolCallsUsed := db'.run.toolCallsUsed, leaseExpires := db'.run.leaseExpires))
  {
  }

  /** The row an outcome leaves: the tool's own evidence, or a collection error that names tool and code. */
  predicate Stores(e: Evidence, id: Id, runId: Id, tool: string, outcome: Outcome, now: int) {
    && e.id == id && e.runId == runId && e.collectedAt == Some(now) && e.expiresAt == None
    && (outcome.Result? ==> e.kind == outcome.kind && e.source == outcome.source && e.content == outcome.content)
    && (outcome.ToolFailed? ==>
          && e.kind == CollectionError && e.source == tool && e.content.Keys == {"tool", "error_code"}
          && e.content["tool"] == JStr(tool) && e.content["error_code"] == JStr(outcome.code))
  }

  /** A call that is over names the evidence row of its outcome and ends with its step as the outcome says. */
  predicate Settles(step: StepRow, outcome: Outcome, id: Id) {
    && step.invocation.Some? && step.invocation.value.evidence == Some(id)
    && (outcome.Result? ==>
          step.status == StepStatus.Succeeded && step.invocation.value.status == InvocationStatus.Succeeded)
    && (outcome.ToolFailed? ==>
          && step.status == StepStatus.Failed && step.errorCode == outcome.code
          && step.invocation.value.errorCode == outcome.code
          && step.invocation.value.status ==
               if outcome.code == "TOOL_TRANSIENT_ERROR" then TimedOut else InvocationStatus.Failed)
  }

  /** Some evidence row of the run has this kind and content. */
  predicate Known(evidence: seq<Evidence>, kind: EvidenceType, content: Content) {
    exists e | e in evidence :: e.kind == kind && e.content == content
  }

  predicate AlreadyStored(evidence: seq<Evidence>, tool: string, outcome: Outcome) {
    if outcome.Result? then Known(evidence, outcome.kind, outcome.content)
    else Known(evidence, CollectionError, map["tool" := JStr(tool), "error_code" := JStr(outcome.code)])
  }

  /**
   * The commit of a call: refused exactly when the run has such evidence; otherwise one evidence row for
   * the outcome, the call and its step settled, the run advanced, and the uid bound if the result is the
   * first pod status that has one.
   */
  ghost predicate Committed(db: Db, db': Db, n: nat, outcome: Outcome, id: Id, runId: Id)
    requires n in db.steps && db.steps[n].invocation.Some?
  {
    var tool, last := db.steps[n].invocation.value.tool, |db.evidence|;
    && |db'.evidence| == last + 1 && db'.evidence[..last] == db.evidence
    && Stores(db'.evidence[last], id, runId, tool, outcome, db.now)
    && db'.steps.Keys == db.steps.Keys && (forall k | k in db.steps && k != n :: db'.steps[k] == db.steps[k])
    && Settles(db'.steps[n], outcome, id) && SameCall(db.steps[n], db'.steps[n])
    && db'.run == db.run.(currentStep := n, targetUid := db'.run.targetUid) && db'.now == db.now
    && (if outcome.Result? && tool == "get_pod_status" && Has(outcome.content, "uid") && !Truthy(db.run.targetUid)
        then Some(db'.run.targetUid) == Get(outcome.content, "uid")
        else db'.run.targetUid == db.run.targetUid)
  }

  /** The decision and the call itself stay as they were. */
  predicate SameCall(step: StepRow, step': StepRow) {
    && step'.owner == step.owner && step'.conflicting == step.conflicting && step'.kind == step.kind
    && step'.summary == step.summary && step'.evidenceIds == step.evidenceIds
    && step.invocation.Some? && step'.invocation.Some?
    && step'.invocation.value.tool == step.invocation.value.tool
    && step'.invocation.value.sent == step.invocation.value.sent
    && step'.invocation.value.arguments == step.invocation.value.arguments
  }

  lemma CommitEffect(db: Db, n: nat, outcome: Outcome, id: Id, runId: Id)
    requires n in db.steps && db.steps[n].invocation.Some?
    ensures var result := D.CommitTool(db, n, outcome, id, runId);
            && (result.Err? <==> AlreadyStored(db.evidence, db.steps[n].invocation.value.tool, outcome))
            && (result.Ok? ==> Committed(db, result.value, n, outcome, id, runId))
  {
  }

  // ---- Where an iteration ends ----

  predicate Gives(pc: Pc, status: RunStatus, reason: string) {
    pc.Finishing? && pc.status == status && pc.reason == reason && pc.diagnosis == None
  }

  predicate Late(run: RunRow, now: int) { run.deadline.Some? && run.deadline.value <= now }

  /** The reasons that end a run at the head of an iteration, in the order they are looked at. */
  lemma HeadReasonIff(cfg: Config, snap: Snapshot, now: int)
    ensures var pc, run := Prepare(cfg, snap, now), snap.run;
            var steps, calls := run.maxSteps <= run.currentStep, run.maxToolCalls <= run.toolCallsUsed;
            && (run.cancelRequested ==> Gives(pc, RunStatus.Cancelled, "USER_CANCELLED"))
            && (!run.cancelRequested && Late(run, now) ==> Gives(pc, RunStatus.Stopped, "RUN_DEADLINE_EXCEEDED"))
            && (!run.cancelRequested && !Late(run, now) && steps ==> Gives(pc, RunStatus.Stopped, "MAX_STEPS_EXHAUSTED"))
            && (!run.cancelRequested && !Late(run, now) && !steps && calls ==>
                  Gives(pc, RunStatus.Stopped, "TOOL_BUDGET_EXHAUSTED"))
            && (!run.cancelRequested && !Late(run, now) && !steps && !calls ==>
                  pc.Ready? || Gives(pc, RunStatus.Stopped, "CONTEXT_TOO_LARGE"))
  {
  }

  /** The reason of a decision, unless it gives none. */
  predicate Because(reason: string, d: Decision, otherwise: string) {
    if d.stopReason in {None, Some("")} then reason == otherwise else Some(reason) == d.stopReason
  }

  /** A decision that calls nothing succeeds as a step, advances the run and ends it its own way. */
  lemma ConclusionEffect(cfg: Config, db: Db, f: Frame, d: Decision)
    requires Sequence(f) in db.steps && !d.kind.CallTool?
    ensures var result := Dispatched(cfg, db, f, d);
            && result.Some? && Closed(db, result.value.0, Sequence(f), StepStatus.Succeeded, "", true)
            && result.value.1.Finishing?
            && (d.kind.Complete? ==>
                  result.value.1
                  == Finishing(RunStatus.Completed, "GOAL_COMPLETED", d.diagnosis, f.snap.run.currentStep + 1))
            && (d.kind.AskHuman? ==>
                  Gives(result.value.1, RunStatus.AwaitingHuman, result.value.1.reason)
                  && Because(result.value.1.reason, d, "HUMAN_INPUT_REQUIRED"))
            && (d.kind.Stop? ==>
                  Gives(result.value.1, RunStatus.Stopped, result.value.1.reason)
                  && Because(result.value.1.reason, d, "REASONER_STOPPED"))
  {
    CloseEffect(db, Sequence(f), StepStatus.Succeeded, "");
  }

  /**
   * A call is judged on the snapshot: its bound uid, its counters and every call made so far. A denied
   * one ends the run as STOPPED, one an operator must see as AWAITING_HUMAN, both after its step.
   */
  lemma CallEffect(cfg: Config, db: Db, f: Frame, d: Decision)
    requires Sequence(f) in db.steps && d.kind.CallTool? && d.tool.Some?
    ensures var result, n := Dispatched(cfg, db, f, d), Sequence(f);
            var facts := PolicyInput(f.snap.run.targetUid, f.snap.run.toolCallsUsed, f.snap.run.maxToolCalls,
                                     d.tool.value, d.arguments, PreviousPrints(f.snap.steps));
            var policy := cfg.evaluate(facts);
            && (result.Some? <==> d.tool.value != "" && d.tool.value in cfg.registry)
            && (result.Some? && policy.Deny? ==>
                  Closed(db, result.value.0, n, StepStatus.Denied, policy.reason, true)
                  && Gives(result.value.1, RunStatus.Stopped, policy.reason))
            && (result.Some? && policy.AskOperator? ==>
                  Closed(db, result.value.0, n, StepStatus.Denied, policy.reason, true)
                  && Gives(result.value.1, RunStatus.AwaitingHuman, policy.reason))
            && (result.Some? && policy.Allow? && db.steps[n].invocation.None? ==>
                  D.StartTool(db, n, d.tool.value, d.arguments, cfg.sanitizeArguments(d.arguments)) == Ok(result.value.0)
                  && result.value.1 == ToolRunning(f, d))
  {
  }

  /** The calls a policy knows are those of the snapshot's rows, with their arguments as stored. */
  lemma PreviousIff(steps: map<nat, StepRow>, call: CallPrint)
    ensures call in PreviousPrints(steps) <==>
              exists n | n in steps ::
                && steps[n].invocation.Some? && steps[n].invocation.value.tool == call.tool
                && steps[n].invocation.value.arguments == call.arguments
  {
    if n :| n in steps && steps[n].invocation.Some? && steps[n].invocation.value.tool == call.tool
            && steps[n].invocation.value.arguments == call.arguments {
      assert CallPrint(steps[n].invocation.value.tool, steps[n].invocation.value.arguments) == call;
    }
  }

  /** A decision that failed ends its step under the error's code; only an overspent budget merely stops the run. */
  lemma UndecidedEffect(cfg: Config, s: Sys, w: WorkerId)
    requires PcOf(s, w).Undecided? && Sequence(PcOf(s, w).f) in s.db.steps
    ensures var next, f, error := StepFail(cfg, s, w), PcOf(s, w).f, PcOf(s, w).error;
            && next.Some? && Closed(s.db, next.value.db, Sequence(f), StepStatus.Failed, CodeOf(error), true)
            && Gives(PcOf(next.value, w), if error.ModelBudgetExhausted? then RunStatus.Stopped else RunStatus.Failed,
                     CodeOf(error))
  {
    CloseEffect(s.db, Sequence(PcOf(s, w).f), StepStatus.Failed, CodeOf(PcOf(s, w).error));
  }

  /** Before acting, a worker looks at the run again: a cancel comes before a deadline, and neither advances the run. */
  lemma EndingEffect(cfg: Config, s: Sys, w: WorkerId)
    requires PcOf(s, w).Recorded? && Sequence(PcOf(s, w).f) in s.db.steps
    ensures var checked, run := StepCheck(cfg, s, w), s.db.run;
            && checked.Some? && checked.value.db == s.db
            && (PcOf(checked.value, w).Idle? <==> Over(run.status))
            && (PcOf(checked.value, w).Cleared? <==> !Over(run.status) && !run.cancelRequested && !Late(run, s.db.now))
            && (PcOf(checked.value, w).Ending? ==>
                  var ended, n := StepEnd(cfg, checked.value, w), Sequence(PcOf(s, w).f);
                  var reason := if run.cancelRequested then "USER_CANCELLED" else "RUN_DEADLINE_EXCEEDED";
                  && ended.Some? && Closed(s.db, ended.value.db, n, StepStatus.Denied, reason, false)
                  && Gives(PcOf(ended.value, w),
                           if run.cancelRequested then RunStatus.Cancelled else RunStatus.Stopped, reason))
  {
    var checked := StepCheck(cfg, s, w).value;
    if PcOf(checked, w).Ending? {
      CloseEffect(s.db, Sequence(PcOf(s, w).f), StepStatus.Denied,
                  if s.db.run.cancelRequested then "USER_CANCELLED" else "RUN_DEADLINE_EXCEEDED");
    }
  }

  // ---- What a request is built from ----

  /** The evidence of a row's call. */
  function Produced(row: StepRow): Option<Id> {
    if row.invocation.Some? then row.invocation.value.evidence else None
  }

  ghost predicate LastOf(rows: seq<StepRow>, id: Id) {
    exists k | 0 <= k < |rows| :: Produced(rows[k]) == Some(id) && forall j | k < j < |rows| :: Produced(rows[j]).None?
  }

  /** The latest evidence is that of the last row that has any. */
  lemma {:induction false} LatestEvidenceIff(rows: seq<StepRow>, id: Id)
    ensures LatestEvidence(rows) == Some(id) <==> LastOf(rows, id)
  {
    if rows != [] {
      var last := |rows| - 1;
      assert rows == rows[..last] + [rows[last]];
      LatestEvidenceIff(rows[..last], id);
      if Produced(rows[last]).None? {
        LastProducer(rows, id);
      }
    }
  }

  lemma LastProducer(rows: seq<StepRow>, id: Id)
    requires rows != [] && Produced(rows[|rows| - 1]).None?
    ensures LastOf(rows, id) <==> LastOf(rows[..|rows| - 1], id)
  {
    var last := |rows| - 1;
    if LastOf(rows[..last], id) {
      var k :| 0 <= k < last && Produced(rows[..last][k]) == Some(id)
            && forall j | k < j < last :: Produced(rows[..last][j]).None?;
      assert Produced(rows[k]) == Some(id) && forall j | k < j < last :: rows[..last][j] == rows[j];
    }
    if LastOf(rows, id) {
      var k :| 0 <= k < |rows| && Produced(rows[k]) == Some(id) && forall j | k < j < |rows| :: Produced(rows[j]).None?;
      assert Produced(rows[..last][k]) == Some(id);
    }
  }

  /** Rows numbered without gaps are read in their order. */
  lemma {:induction false} RowsInOrder(steps: map<nat, StepRow>, n: nat)
    requires forall k: nat | 1 <= k <= n :: k in steps
    ensures |RowsUpTo(steps, n)| == n && forall k | 0 <= k < n :: RowsUpTo(steps, n)[k] == steps[k + 1]
  {
    if n > 0 {
      RowsInOrder(steps, n - 1);
    }
  }

  /** One note per row: its summary, what it cites, and the error of its call. */
  lemma {:induction false} NotesAre(rows: seq<StepRow>)
    ensures |NotesOf(rows)| == |rows|
    ensures forall k | 0 <= k < |rows| ::
              var note, row := NotesOf(rows)[k], rows[k];
              && note.summary == row.summary && note.evidenceIds == row.evidenceIds
              && (note.failure.Some? <==> row.invocation.Some? && row.invocation.value.errorCode != "")
              && (note.failure.Some? ==>
                    note.failure.value.tool == row.invocation.value.tool
                    && note.failure.value.reason == row.invocation.value.errorCode)
  {
    if rows != [] {
      NotesAre(rows[1..]);
    }
  }

  /** One entry per row, numbered from `first`, with the tool it called. */
  lemma {:induction false} HistoryIs(rows: seq<StepRow>, first: nat)
    ensures |HistoryOf(rows, first)| == |rows|
    ensures forall k | 0 <= k < |rows| ::
              && HistoryOf(rows, first)[k].sequence == first + k
              && (HistoryOf(rows, first)[k].tool.Some? <==> rows[k].invocation.Some?)
              && (rows[k].invocation.Some? ==> HistoryOf(rows, first)[k].tool == Some(rows[k].invocation.value.tool))
  {
    if rows != [] {
      HistoryIs(rows[1..], first + 1);
    }
  }

  lemma {:induction false} NumberedCount(steps: map<nat, StepRow>, n: nat)
    requires forall k :: k in steps <==> 1 <= k <= n
    ensures |steps| == n
  {
    if n == 0 {
      assert steps.Keys == {};
    } else {
      var rest := steps - {n};
      NumberedCount(rest, n - 1);
      assert steps.Keys == rest.Keys + {n};
    }
  }

  /** What a request says of the first `n` steps and of the run. */
  ghost predicate Reports(cfg: Config, snap: Snapshot, n: nat, r: Request) {
    var run := snap.run;
    && (forall k: nat | 1 <= k <= n :: k in snap.steps)
    && r.runId == cfg.runId && r.evidence == snap.evidence && r.header.targetUid == run.targetUid
    && r.header.remaining.steps == Max(run.maxSteps - run.currentStep, 0)
    && r.header.remaining.toolCalls == Max(run.maxToolCalls - run.toolCallsUsed, 0)
    && r.header.remaining.modelCalls == Max(run.maxModelCalls - run.modelCallsUsed, 0)
    && r.header.remaining.tokens == Max(run.maxTokens - run.inputUsed - run.outputUsed, 0)
    && |r.header.history| == n && |r.steps| == n
    && (forall k: nat | 1 <= k <= n ::
          && r.header.history[k - 1].sequence == k
          && r.header.history[k - 1].tool == ToolOf(snap.steps[k])
          && r.steps[k - 1].summary == snap.steps[k].summary && r.steps[k - 1].evidenceIds == snap.steps[k].evidenceIds)
  }

  function ToolOf(row: StepRow): Option<string> {
    if row.invocation.Some? then Some(row.invocation.value.tool) else None
  }

  /** The rows a request is made of. */
  lemma RequestRows(cfg: Config, snap: Snapshot, now: int, budget: Option<ModelBudget>, n: nat) returns (rows: seq<StepRow>)
    requires forall k :: k in snap.steps <==> 1 <= k <= n
    ensures |rows| == n && forall k: nat | 1 <= k <= n :: k in snap.steps && rows[k - 1] == snap.steps[k]
    ensures var r := RequestOf(cfg, snap, now, budget);
            && r.runId == cfg.runId && r.evidence == snap.evidence && r.header == HeaderOf(snap.run, rows)
            && r.steps == NotesOf(rows) && r.ranking == RankingOf(rows)
  {
    NumberedCount(snap.steps, n);
    RowsInOrder(snap.steps, n);
    rows := RowsUpTo(snap.steps, n);
  }

  /** The context of an iteration is built from every step so far, in order, with what the run has left. */
  lemma RequestReports(cfg: Config, snap: Snapshot, now: int, budget: Option<ModelBudget>, n: nat)
    requires forall k :: k in snap.steps <==> 1 <= k <= n
    ensures Reports(cfg, snap, n, RequestOf(cfg, snap, now, budget))
  {
    var rows := RequestRows(cfg, snap, now, budget, n);
    NotesAre(rows);
    HistoryIs(rows, 1);
  }

  /** The ranking prefers the last evidence produced, and what the last three steps cite. */
  lemma RequestPrefers(cfg: Config, snap: Snapshot, now: int, budget: Option<ModelBudget>, n: nat, id: Id)
    requires forall k :: k in snap.steps <==> 1 <= k <= n
    ensures RequestOf(cfg, snap, now, budget).ranking.latest == Some(id) <==> LatestAt(snap.steps, n, id)
    ensures id in RequestOf(cfg, snap, now, budget).ranking.referenced <==>
              exists k: nat | 1 <= k <= n && n - 3 < k :: id in snap.steps[k].evidenceIds
  {
    var rows := RequestRows(cfg, snap, now, budget, n);
    LatestEvidenceIff(rows, id);
    LastInOrder(snap.steps, rows, id);
    ReferencedInOrder(snap.steps, rows, id);
  }

  /** `id` is the evidence of the last of the steps 1..n that has any. */
  ghost predicate LatestAt(steps: map<nat, StepRow>, n: nat, id: Id)
    requires forall k: nat | 1 <= k <= n :: k in steps
  {
    exists k: nat | 1 <= k <= n ::
      Produced(steps[k]) == Some(id) && forall j: nat | k < j <= n :: Produced(steps[j]).None?
  }

  lemma LastInOrder(steps: map<nat, StepRow>, rows: seq<StepRow>, id: Id)
    requires forall k: nat | 1 <= k <= |rows| :: k in steps && rows[k - 1] == steps[k]
    ensures LastOf(rows, id) <==> LatestAt(steps, |rows|, id)
  {
    if LastOf(rows, id) {
      var k :| 0 <= k < |rows| && Produced(rows[k]) == Some(id) && forall j | k < j < |rows| :: Produced(rows[j]).None?;
      assert rows[(k + 1) - 1] == steps[k + 1];
      forall j: nat | k + 1 < j <= |rows| ensures Produced(steps[j]).None? {
        assert rows[j - 1] == steps[j];
      }
    }
    if k: nat :| 1 <= k <= |rows| && Produced(steps[k]) == Some(id)
                 && forall j: nat | k < j <= |rows| :: Produced(steps[j]).None? {
      assert Produced(rows[k - 1]) == Some(id);
      forall j | k - 1 < j < |rows| ensures Produced(rows[j]).None? {
        assert rows[(j + 1) - 1] == steps[j + 1];
      }
    }
  }

  lemma ReferencedInOrder(steps: map<nat, StepRow>, rows: seq<StepRow>, id: Id)
    requires forall k: nat | 1 <= k <= |rows| :: k in steps && rows[k - 1] == steps[k]
    ensures id in RankingOf(rows).referenced <==>
              exists k: nat | 1 <= k <= |rows| && |rows| - 3 < k :: id in steps[k].evidenceIds
  {
    if id in RankingOf(rows).referenced {
      var row :| row in LastThree(rows) && id in row.evidenceIds;
      LastThreeMembers(rows);
      var k :| 0 <= k < |rows| && |rows| - 3 <= k && rows[k] == row;
      assert rows[(k + 1) - 1] == steps[k + 1];
    }
    if k: nat :| 1 <= k <= |rows| && |rows| - 3 < k && id in steps[k].evidenceIds {
      LastThreeMembers(rows);
      assert rows[k - 1] == steps[k] && steps[k] in LastThree(rows);
    }
  }
}
