# Verification of the operations agent

This project models the decision and remediation core of the Kubernetes operations agent and proves
what its documentation promises: a bounded, budgeted, evidence-based agent loop that stays correct
when several workers hold the same run; a remediation protocol in which every pod deletion was
approved and happens at most once per key; and the selection, redaction and text limiting that
prepare what a model may see.

`dafny verify dfyconfig.toml` checks everything.

## How the model is organised

Each `session_factory.begin()` block of the program is one atomic step. Reads of one session (a
snapshot) are one step too. Model answers, tool results, cluster answers, inspections and the clock
are inputs that may take any value.

| files | what they hold |
|---|---|
| `common`, `domain` | optional values, results, JSON; the status enums and their transition table |
| `text_limit`, `redaction` | UTF-8 truncation after section 3 of RFC 3629, log excerpts, the size envelope; structural redaction |
| `greedy_choice`, `context_memory`, `context_packing`, `evidence_order`, `context_builder` | evidence items, working memory, greedy packing as a value and as an object changed in place, the sort, and `build` |
| `agent_decision` | decision validation, the tool policy, the tool registry |
| `agent_database`, `agent_run`, `agent_effects` | the rows of one agent run with their transactions; the run as a state machine of any number of workers; what each transaction and decision does, column by column |
| `agent_structure`, `agent_budget`, `agent_tools`, `agent_completion` | the four invariants of that machine, each kept by every step |
| `agent_guarantees`, `tool_outcomes`, `run_endings` | what holds in every reachable state and along every run: the invariants read off on rows, the evidence kept of each tool call, the reasons a run ends for |
| `agent_last_step`, `agent_repeat` | two runs that show what the invariants do not say |
| `agent_worker` | one worker as an object: `_claim`, `_decide`, `process`, `_finish` changing rows in place |
| `rule_reasoner`, `rule_codes`, `rule_run` | the rules reasoner and the run it makes when its tools answer; what it concludes and asks for, code by code, on the fields of the evidence; the same rules in the state machine of any number of workers |
| `ops_database`, `ops_effects`, `ops_invariants`, `ops_consistency` | incidents, tasks, plans, executions and runs and their transactions; when each is accepted and what it writes; what each keeps |
| `remediation`, `remediation_invariants`, `remediation_guarantees`, `remediation_outcomes` | requests, jobs, alerts and the sweep interleaved in any order; the invariant; its consequences; which diagnoses and deletions are recorded |
| `ops_service` | the service and the sweep as methods that change the tables in place |
| `outbox` | the dispatcher loop, the queue, crashes between enqueue and commit |
| `intake` | alert intake, concurrent with itself and with status changes |
| `run_agreement` | the two views of a run, its own row and the one beside incidents, change status alike |

Objects that share rows with other processes (`AgentWorker`, `OpsService`, `IncidentTable`) call a
method `Others` between two transactions. Its contract allows whatever keeps the invariant and leaves
the caller's own position alone, so the methods are proved for every interleaving.

Configuration collaborators of the agent loop (the context builder, the validation, the policy and the
sanitizing of tool arguments) are function-valued fields; predicate `AgentRun.Wired` ties them to the
functions of `ContextBuilder`, `AgentDecision` and `Redaction`. Every guarantee assumes `Wired`.

## Results that differ from what one might expect

- A COMPLETED run's diagnosis cites exactly what the step that completed it cites. That step need not
  be the last row: a second worker that takes over an expired lease can insert a row before the first
  worker's finish (`AgentLastStep.SecondWorkerCanAddARow`). The completing row stays the last one
  exactly when no insert finds its sequence free after its dispatch
  (`AgentLastStep.CompletingRowStaysLastIff`), and always does while the lease test grants nobody the
  run of a worker that is still at work (`AgentLastStep.SuccessiveWorkersCompleteLast`): workers one
  after the other, retries after a failure or a death included.
- `select_context` can return True with a context that does not fit: rolling back to no evidence
  leaves a refreshed header that was never tested (`ContextMemory.RollbackToEmptyMayNotFit`).
  `ContextMemory.FinalFits` states on the candidates exactly when the result fits, and
  `ContextMemory.EmptyResultSafeIffNothingUsable` when it does whatever the size test; the recheck in
  `build` closes the gap (`ContextBuilder.BuiltContextFits`).
- The duplicate check compares raw arguments with sanitized stored ones, so one run can make the same
  call twice: `AgentRepeat.SameCallTwice` is a run on an incident whose resource name reads
  `password=x`, which is stored redacted. A repeat within budget is started exactly when its arguments
  hold a secret or are over the size limit (`AgentTools.RepeatStartsIffSanitizingChangedIt`).
- Of the VERIFYING incidents a complete recovery sweep ends those with a RUNNING execution and leaves
  every other (`RemediationGuarantees.SweepLeavesVerifyingIff`); one whose verifying process died is
  among the others (`RemediationGuarantees.VerifyingCanStrand`). For DIAGNOSING and REMEDIATING one
  sweep suffices (`RemediationGuarantees.SweepClearsEverything`).
- A pod deletion that returned can stay unrecorded: while the pod is being deleted an alert may report
  the recovery and take the incident to VERIFYING, from where the deletion can no longer be recorded;
  its execution stays RUNNING until a sweep fails it (`RemediationOutcomes.DeletionCanGoUnrecorded`).
  `RemediationOutcomes.ReturnedDeletionIsRecordedIff` is the exact condition.
- The redaction flag is not a difference flag. The two disagree exactly on clean values that hold a
  sensitive key, or a string with an inline secret, at some depth (`Redaction.FlagIsNoDifferenceIff`),
  such as a value that was redacted before (`Redaction.FlagStaysAfterRedaction`).
- A decision of the rules can be one that validation must refuse: a crash known only from a last
  termination reason, with no failed readiness, Redis outage or alert to cite, is concluded without
  evidence (`RuleReasoner.CrashWithNothingToCite`). `RuleReasoner.DecisionIsSound` states that this is
  the only such decision.

## Model

| member | source | states |
|---|---|---|
| TextLimit.TruncateKeepsLongestPrefix | app/ops_agent/evidence.py:73-77 | for every string UTF-8 can encode and every limit, the result is the longest code-point prefix whose encoding fits, and the only string that is |
| TextLimit.TruncateIdempotent | app/ops_agent/evidence.py:73-77 | truncating twice is truncating once |
| TextLimit.RoundTrip | app/ops_agent/evidence.py:77 | decoding with errors ignored inverts encoding |
| TextLimit.DecodeOneSound | app/ops_agent/evidence.py:77 | what the decoder accepts as a character is that character's only encoding, so no overlong form or surrogate |
| TextLimit.LogExcerptBounded | app/ops_agent/context_memory.py:79-87 | an excerpt never exceeds 256 bytes; short texts are kept whole, longer ones become as much of the keyword lines and the tail as fits |
| TextLimit.LimitWrapsExactlyOversized | app/ops_agent/evidence.py:80-95 | a payload is wrapped exactly when it is over the limit, around the longest prefix that leaves room for the envelope |
| Redaction.RedactCleans | app/ops_agent/evidence.py:47-70 | at every depth no sensitive key keeps its value, and nothing but secrets changes |
| Redaction.FixedIffClean | app/ops_agent/evidence.py:47-70 | a value is left as it is exactly when it holds no secret |
| Redaction.RedactIsIdempotent | app/ops_agent/evidence.py:47-70 | redacting twice is redacting once |
| Redaction.UnflaggedIsUnchanged | app/ops_agent/evidence.py:47-70 | without the flag the value is clean and unchanged |
| Redaction.FlaggedIffHoldsSecret | app/ops_agent/evidence.py:47-70 | the flag is set exactly when some path through the value leads to a sensitive key or to a string with an inline secret |
| Redaction.FlagIsNoDifferenceIff | app/ops_agent/evidence.py:47-70 | the flag and a comparison of value and result disagree exactly on clean values that hold a secret at some depth |
| Redaction.FlagStaysAfterRedaction | app/ops_agent/evidence.py:51-54 | an object on which they disagree: a sensitive key whose value is already the placeholder |
| Redaction.SanitizedIsSameIff | app/ops_agent/evidence.py:80-95 | a payload that is no size envelope itself is kept as it is exactly when it is clean and within the limit |
| Domain.ExecutionNeverRestarts | app/ops_agent/domain.py:225-238 | along any path of transitions no execution returns to an earlier stage |
| Domain.InactiveIncidentStaysInactive | app/ops_agent/domain.py:143-196 | along any path a resolved or closed incident never becomes active again |
| GreedyChoice.PicksAreGreedy | app/ops_agent/context_memory.py:140-158 | each index is picked exactly when it passes the test against the indices picked before it |
| GreedyChoice.GreedyIsExact | app/ops_agent/context_memory.py:140-158 | that property determines the picks uniquely |
| ContextMemory.ItemShows | app/ops_agent/context_memory.py:49-76 | an item has its row's id, type, source and uid and its cleaned, limited content; it is fresh, stale, matched or mismatched exactly as the row's columns say |
| ContextMemory.StaleStays | app/ops_agent/context_memory.py:72-74 | evidence that is stale is stale at every later time |
| ContextMemory.ConfirmedIff | app/ops_agent/context_memory.py:90-102 | the confirmed facts are exactly the observed fields of the current items that have any, each citing its item |
| ContextMemory.HypothesesIff | app/ops_agent/context_memory.py:103-109 | the hypotheses are exactly the summaries of the last three steps that cite nothing but the given items |
| ContextMemory.FailedWindow | app/ops_agent/context_memory.py:110-113 | the failed attempts are the last three: each new one pushes the oldest out |
| ContextMemory.ConflictingIff | app/ops_agent/context_memory.py:128-138 | observations conflict exactly when two fresh, matched items of one type, uid and time differ on phase, ready, exists or ready_replicas |
| ContextMemory.ReasonsIff | app/ops_agent/context_memory.py:166-178 | each reason for incompleteness is given exactly when something was omitted, excerpted, not current or conflicting |
| ContextMemory.SameFingerprintIffSameObservation | app/ops_agent/context_memory.py:145-147 | two items count as duplicates exactly when type, uid, source, freshness and content agree |
| ContextMemory.OmissionExplained | app/ops_agent/context_memory.py:142-158 | a candidate is left out if and only if it is empty, truncated, agrees with an earlier retained one in type, uid, source, freshness and content, or did not fit with the retained prefix |
| ContextMemory.RetainedAreDistinct | app/ops_agent/context_memory.py:145-158 | no two retained items agree in type, uid, source, freshness and content |
| ContextMemory.FinalAccounting | app/ops_agent/context_memory.py:118-178 | retained plus omitted is the candidate count, exactly the retained ids are visible, memory cites nothing else, and the conflict mark is the pairwise definition |
| ContextMemory.CompleteMeansEverythingShown | app/ops_agent/context_memory.py:161-178 | the incomplete mark is absent exactly when every candidate is shown, untruncated, current and free of conflicts |
| ContextMemory.WorkingMemoryGrounded | app/ops_agent/context_memory.py:90-115 | every confirmed fact and hypothesis cites only given evidence |
| ContextMemory.FinalFits | app/ops_agent/context_memory.py:139-158 | when selection succeeds the result fits if and only if some usable candidate fits alone, none is usable, or the refreshed empty context fits |
| ContextMemory.EmptyResultSafeIffNothingUsable | app/ops_agent/context_memory.py:139-158 | an empty result is safe for every size test exactly when no candidate is usable |
| ContextMemory.RollbackToEmptyMayNotFit | app/ops_agent/context_memory.py:150-157 | a size test under which selection succeeds with a context that does not fit |
| ContextPacking.OverwriteRevealsClash | app/ops_agent/context_memory.py:128-138 | a map overwritten as it goes still shows every clash, with the last value as the only witness |
| ContextPacking.ClashIsConflict | app/ops_agent/context_memory.py:128-138 | the readings clash if and only if two comparable candidates of one type, uid and time differ on a field |
| ContextPacking.PackingContext.MarkConflicts | app/ops_agent/context_memory.py:128-138 | the one-pass scan sets the mark exactly when the readings clash |
| ContextPacking.PackingContext.Refresh | app/ops_agent/context_memory.py:161-178 | rebuilds the context for the current evidence list |
| ContextPacking.PackingContext.Consider | app/ops_agent/context_memory.py:142-158 | one round keeps or rolls back a candidate as the greedy specification says |
| ContextPacking.PackingContext.SelectContext | app/ops_agent/context_memory.py:118-158 | the in-place packer computes the greedy selection and returns whether the entry context fits |
| EvidenceOrder.KeyLessTotal | app/ops_agent/agent_core.py:205-210 | any two different sort keys are ordered one way and never both |
| EvidenceOrder.SortIsDescending | app/ops_agent/agent_core.py:205-210 | for items with distinct ids the sorted list is strictly descending |
| EvidenceOrder.SortRanks | app/ops_agent/agent_core.py:203-210 | of two items the earlier one wins at the first difference in: uid, freshness, latest result, references, structure, time, id |
| EvidenceOrder.SortIsOrderIndependent | app/ops_agent/agent_core.py:205-210 | the sort of items with distinct ids does not depend on their order |
| ContextBuilder.BuildInPlace | app/ops_agent/agent_core.py:188-285 | building over one context object gives the specified result or the one error |
| ContextBuilder.BuiltContextFits | app/ops_agent/agent_core.py:277-285 | a returned context is within the byte limit and, with a model budget, the input limit |
| ContextBuilder.BuiltContextDescribesRun | app/ops_agent/agent_core.py:198-201 | every shown item is an evidence row of this run; it is marked fresh exactly when that row is unexpired and within its time to live, stale exactly when it is not, and of another uid exactly when it reports one; the conflict mark is exact |
| ContextBuilder.BuildIsOrderIndependent | app/ops_agent/agent_core.py:188-285 | for rows with distinct ids the result does not depend on the order of the list |
| AgentDecision.AcceptedIffConsistent | app/ops_agent/agent_core.py:137-170 | a decision is accepted exactly when it is well-formed, harmless, consistent for its kind and cites visible evidence only |
| AgentDecision.RejectionReasons | app/ops_agent/agent_core.py:137-170 | the error of a rejected decision: schema, citations, executable text, then what its kind asks for |
| AgentDecision.PolicyExactly | app/ops_agent/agent_core.py:587-626 | a call is allowed if and only if it is in scope, on the bound uid, within budget and new; an operator is asked if and only if it is in the namespace but names another resource or uid |
| AgentDecision.RefusalReasons | app/ops_agent/agent_core.py:587-626 | the reason of a refused call is the first check it fails, in the order of the policy |
| AgentDecision.AllowedCallPassesRegistry | app/ops_agent/tooling.py:69-88 | at the execution boundary an allowed call can fail nothing but the argument schema |
| AgentDecision.ToolRegistry.Register | app/ops_agent/tooling.py:51-58 | write tools and repeated names are refused, and no definition is replaced |
| AgentStructure.InsertedFrameIsCurrent | app/ops_agent/agent_core.py:889-933 | the worker that wins the step insert finds its snapshot unchanged: nobody else acted since |
| AgentStructure.StepKeepsStructure | app/ops_agent/agent_core.py:888-1144 | every step of every worker keeps rows contiguous, owned and in line with the counters |
| AgentBudget.BudgetIsLargestAffordable | app/ops_agent/agent_core.py:519-533 | a budget is given exactly when a call and a positive limit are left, and it is the largest that window, tokens left and configuration allow |
| AgentBudget.RequestWithinBudget | app/ops_agent/agent_core.py:519-533 | budget and size test together bound estimate, output reserve and margin by the window and by the tokens left |
| AgentBudget.ReserveWithinBudget | app/ops_agent/agent_core.py:826-836 | a reservation leaves the committed counters within the token and the call budget |
| AgentBudget.StepKeepsLedger | app/ops_agent/agent_core.py:824-867 | every step keeps the token ledger balanced, requests in budget and overspending final |
| AgentBudget.OverspentRunCallsNoMore | app/ops_agent/agent_core.py:855-865 | once usage exceeds the budget with no request out, no step makes another model call |
| AgentTools.StartedCallGranted | app/ops_agent/agent_core.py:1025-1065 | a started call was judged against all earlier calls, the current counters and the bound uid |
| AgentTools.StepKeepsTools | app/ops_agent/agent_core.py:1025-1144 | every step keeps tool calls counted, confined, stored sanitized, and never sent as an earlier one is stored |
| AgentTools.RepeatStartsIffSanitizingChangedIt | app/ops_agent/agent_core.py:1025-1043 | a repeat of an earlier call within budget is started exactly when its arguments are not clean or are over the size limit |
| AgentTools.UidWrittenOnce | app/ops_agent/agent_core.py:1104-1108 | no step changes a bound resource uid |
| AgentCompletion.ModelDecisionOk | app/ops_agent/agent_core.py:842-849 | a model conclusion that stands cites fresh evidence of this run and of no other uid, without a conflict |
| AgentCompletion.RuleDecisionOk | app/ops_agent/agent_core.py:866-886 | so does a conclusion of the rules, judged at decision time |
| AgentCompletion.EligibleIffRecent | app/ops_agent/agent_core.py:876-883 | the rules are given exactly the rows of this run that are within their time to live, unexpired and of no other uid at that moment |
| AgentCompletion.ModelStandsIff | app/ops_agent/agent_core.py:842-849 | the model's decision stands exactly when it is acceptable and, to conclude, cites items shown as fresh and of no other uid in a context without conflicts |
| AgentCompletion.RuleTakenIff | app/ops_agent/agent_core.py:866-886 | with a conflict a human is asked; otherwise the rules' decision is taken exactly when it is acceptable and cites eligible rows only |
| AgentCompletion.StepKeepsCompletion | app/ops_agent/agent_core.py:740-792 | every step keeps recorded conclusions supported and a COMPLETED run tied to the step that completed it |
| AgentEffects.ClaimEffect | app/ops_agent/agent_core.py:713-738 | a claim is refused exactly for a finished run or a live lease of another worker; else the lease is renewed, and a queued run starts with its deadline and one alert row |
| AgentEffects.FinishEffect | app/ops_agent/agent_core.py:740-753 | an unfinished run gets status, reason and diagnosis and loses its lease |
| AgentEffects.CancelEffect | app/ops_agent/agent_core.py:794-807 | a cancel is noted on every unfinished run and ends a queued one |
| AgentEffects.RecoverEffect | app/ops_agent/recovery.py:48-80 | the sweep ends exactly the due runs under way, STOPPED when they were RUNNING and FAILED otherwise |
| AgentEffects.InsertEffect | app/ops_agent/agent_core.py:922-935 | a free sequence gets one running, undecided row of the inserting worker; a taken one refuses; other rows stay |
| AgentEffects.DecisionEffect | app/ops_agent/agent_core.py:971-981 | a decision is written into its own row and nowhere else |
| AgentEffects.AccountingEffect | app/ops_agent/agent_core.py:824-863 | after reservation and settlement a call has cost its usage, or the reservation when that is unknown |
| AgentEffects.CommitEffect | app/ops_agent/agent_core.py:1082-1136 | the commit of a call is refused exactly when its evidence exists, and else stores the outcome as it is |
| AgentEffects.HeadReasonIff | app/ops_agent/agent_core.py:892-921 | the reasons that end a run at the head of an iteration, in order: cancel, deadline, steps, tool calls, context |
| AgentEffects.ConclusionEffect | app/ops_agent/agent_core.py:994-1022 | COMPLETE, ASK_HUMAN and STOP end the step successfully and the run as COMPLETED, AWAITING_HUMAN and STOPPED, each for its reason |
| AgentEffects.CallEffect | app/ops_agent/agent_core.py:1024-1067 | a call is judged on the snapshot; a denied one stops the run, one for the operator hands it over, an allowed one starts |
| AgentEffects.PreviousIff | app/ops_agent/agent_core.py:1025-1029 | the calls a policy knows are those of the snapshot's rows, with the arguments as stored |
| AgentEffects.UndecidedEffect | app/ops_agent/agent_core.py:950-969 | a failed decision closes its step under the error's code; the run is STOPPED for an exhausted budget and FAILED otherwise |
| AgentEffects.EndingEffect | app/ops_agent/agent_core.py:975-992 | a cancel or a passed deadline found before acting denies the step and does not advance the run; a cancel comes first |
| AgentEffects.RequestReports | app/ops_agent/agent_core.py:188-247 | the context is built from every step so far, in order, with the budgets the run has left |
| AgentEffects.RequestPrefers | app/ops_agent/agent_core.py:202-210 | the ranking prefers the evidence of the last call that has any and what the last three steps cite |
| AgentGuarantees.HeadGoesOnIff | app/ops_agent/agent_core.py:892-921 | the iteration head goes on exactly within the cancel, deadline, step and tool guards and with a context that fits the model's budget or fits without the model; otherwise it ends the run as CANCELLED or STOPPED |
| AgentGuarantees.StepRowsAreContiguous | app/ops_agent/agent_core.py:922-948 | with any number of workers step rows are numbered 1..k, k is current_step or one more and at most max_steps |
| AgentGuarantees.OneWorkerInsideAStep | app/ops_agent/models.py:244-247 | at most one worker is inside a step, on the row it inserted itself, whatever became of the leases |
| AgentGuarantees.LoopRoundsBounded | app/ops_agent/agent_core.py:892-902 | one call of process goes round its loop at most max_steps times |
| AgentGuarantees.RequestsStayWithinBudgets | app/ops_agent/agent_core.py:519-533 | a request that is out fits the window, the token budget with its reservation, and the call budget |
| AgentGuarantees.TokensAreConserved | app/ops_agent/agent_core.py:826-865 | tokens and calls used are the sums over all calls made, actual usage when known, else the reservation; model calls never exceed their budget |
| AgentGuarantees.OverspendingIsFinal | app/ops_agent/agent_core.py:855-865 | after an overspent settlement no later state has another model call, and that step never starts a tool |
| AgentGuarantees.ToolCallsAreGoverned | app/ops_agent/agent_core.py:1025-1065 | tool_calls_used is the number of invocation rows and within budget; every call is confined to the incident, stored sanitized, and never sent as an earlier one is stored |
| AgentGuarantees.RepeatedCallsAreAltered | app/ops_agent/agent_core.py:1025-1043 | in every reachable state a call repeats an earlier one only when its arguments hold a secret or are over the size limit |
| AgentGuarantees.CompletedRunIsSupported | app/ops_agent/agent_core.py:137-170 | a COMPLETED run's citations are those of the step that completed it; each is a row of this run that was collected within its time to live, had not expired and reported no other uid when the decision was judged |
| AgentGuarantees.ConflictNeverCompletes | app/ops_agent/agent_core.py:845-872 | no step whose context carried the conflict mark decides to complete |
| AgentGuarantees.WorkersNeverBlock | app/ops_agent/agent_core.py:888-1144 | every worker always has a next step, and a started call never clashes with an invocation row |
| AgentGuarantees.RunExtends | app/ops_agent/agent_core.py:740-807 | no continuation removes a row, changes its owner, reopens a closed row, rebinds a uid or leaves a finished status |
| ToolOutcomes.HistoryIsSettledCalls | app/ops_agent/agent_core.py:1082-1136 | along every run the recorded outcomes are exactly those of the calls that are over |
| ToolOutcomes.OutcomesAreKept | app/ops_agent/agent_core.py:1090-1136 | along every run a call that is over names exactly one evidence row of the run, with the type, source and content its tool returned, or a collection error with tool and code; call and step end accordingly |
| ToolOutcomes.EvidenceIsExplained | app/ops_agent/agent_core.py:684-711 | along every run each evidence row is the alert's or that of exactly one call |
| ToolOutcomes.BoundUidWasShown | app/ops_agent/agent_core.py:1104-1108 | along every run the bound uid was there at the start or was shown by a pod status the run read |
| RunEndings.EndsAreJustified | app/ops_agent/agent_core.py:888-992 | in every reachable state a CANCELLED run was asked to cancel, a COMPLETED one has reached its goal, and a step is given up as late only after the deadline |
| AgentLastStep.CompletingRowStaysLastIff | app/ops_agent/agent_core.py:922-1007 | the dispatch of a completing decision finds its row the last one, and it stays so along any continuation exactly when no insert succeeds |
| AgentLastStep.SuccessiveWorkersCompleteLast | app/ops_agent/agent_core.py:713-739 | as long as no claim is granted while another worker is still at work, a COMPLETED run cites what its last step cites |
| AgentLastStep.SecondWorkerCanAddARow | app/ops_agent/agent_core.py:713-739 | a reachable COMPLETED run whose last row cites nothing |
| AgentRepeat.SameCallTwice | app/ops_agent/agent_core.py:1025-1043 | a reachable run in which the model has the same call made with the same arguments in two steps, stored redacted as the program redacts them |
| AgentWorker.AgentWorker.Claim | app/ops_agent/agent_core.py:713-738 | the claim in place; tells whether this worker holds a running run |
| AgentWorker.AgentWorker.Finish | app/ops_agent/agent_core.py:740-753 | the finish in place; a finished run is left alone |
| AgentWorker.AgentWorker.RequestCancel | app/ops_agent/agent_core.py:794-807 | cancellation in place; only a queued run ends at once |
| AgentWorker.AgentWorker.InsertStep | app/ops_agent/agent_core.py:922-935 | inserts the row, or is refused exactly when the sequence is taken |
| AgentWorker.AgentWorker.Reserve | app/ops_agent/agent_core.py:827-833 | adds the reservation to the counters |
| AgentWorker.AgentWorker.Settle | app/ops_agent/agent_core.py:855-865 | replaces the reservation by known usage; the decision fails exactly when the budget is exceeded |
| AgentWorker.AgentWorker.FailStep | app/ops_agent/agent_core.py:950-969 | a failed decision ends its step, advances the run and stops or fails it |
| AgentWorker.AgentWorker.Check | app/ops_agent/agent_core.py:975-992 | stops exactly for a finished run, and clears a decision only before the deadline and without a cancel |
| AgentWorker.AgentWorker.Dispatch | app/ops_agent/agent_core.py:994-1067 | writes the rows of the specified dispatch: a call starts exactly when the policy allows it, everything else closes the step, advances the run and sets out to end it |
| AgentWorker.AgentWorker.CommitRows | app/ops_agent/agent_core.py:1082-1136 | refused exactly when the run has evidence of that kind and content; else the one new row has the given id, the run's id, the present time and the result's type, source and content, or is a collection error with tool and code, and call, step, counter and uid follow the outcome |
| AgentWorker.AgentWorker.Process | app/ops_agent/agent_core.py:888-1144 | claims exactly an unheld queued or running run, terminates within max_steps rounds while others act, and after a claim returns only with the run finished |
| RuleReasoner.DecisionIsSound | app/ops_agent/agent_core.py:333-488 | a decision of the rules has consistent fields, cites given evidence and names a registered tool, except exactly for a crash diagnosis with nothing to cite |
| RuleReasoner.CrashWithNothingToCite | app/ops_agent/agent_core.py:424-427 | such a diagnosis: a pod whose container last terminated for CrashLoopBackOff, with its logs and its events read; validation refuses it |
| RuleReasoner.EverythingIsEligible | app/ops_agent/agent_core.py:876-883 | the rows of that diagnosis are fresh and of the bound uid, so the rules are given them |
| RuleReasoner.DecisionIsAcceptable | app/ops_agent/agent_core.py:63-99 | with names and uids free of executable text and rows under distinct ids, schema and text search accept every decision of the rules |
| RuleReasoner.CallsAreOnTarget | app/ops_agent/agent_core.py:346-488 | every call of the rules stays on the incident's target, and a uid it names is the pod's |
| RuleReasoner.RulesEndWithinSixDecisions | app/ops_agent/agent_core.py:333-488 | a run on rules alone whose tools answer ends after at most five calls and six decisions; every call is valid and allowed, and the last decision is valid exactly unless it is the crash diagnosis with nothing to cite |
| RuleCodes.PodCodeIff | app/ops_agent/agent_core.py:367-450 | for each of the ten codes of a pod, exactly which fields of its last status, the alert and the metrics lead to it |
| RuleCodes.PodCitationsIff | app/ops_agent/agent_core.py:409-450 | a conclusion about a pod cites exactly the rows of the kinds its code rests on; without a known fault the pod and the last metric, or the last alert and, when it says that Redis is down, the last metric |
| RuleCodes.MetricCited | app/ops_agent/agent_core.py:439-449 | a conclusion about a metric cites the last one read |
| RuleCodes.PodCallIff | app/ops_agent/agent_core.py:387-438 | what is still asked about a pod, and exactly when: logs, events, limits, the alert's metric |
| RuleCodes.FirstCallIff | app/ops_agent/agent_core.py:352-371 | Redis is asked about first, then the status of the pod or the workload is read |
| RuleCodes.WorkloadDecisionIff | app/ops_agent/agent_core.py:452-468 | a workload's pods are listed once if they can be, then it is unavailable, citing its rows |
| RuleCodes.OtherDecisionIff | app/ops_agent/agent_core.py:470-488 | any other resource is concluded from a metric, asked for if it can be, or handed to a human |
| RuleRun.RulesCallEachToolOnce | app/ops_agent/agent_core.py:866-1065 | in the state machine, with any number of workers and any answers, a run on rules alone calls no tool twice, at most five in all, and a worker goes round at most five times |
| RuleReasoner.CrashVerdictCites | app/ops_agent/diagnosis.py:86-200 | the crash diagnosis cites given evidence, and nothing exactly when it knows no cause and there is no alert |
| OpsEffects.ClaimRunEffect | app/ops_agent/agent_core.py:713-738 | only a queued run starts, and its incident becomes DIAGNOSING exactly from OPEN, FAILED or DIAGNOSED |
| OpsEffects.FinishRunEffect | app/ops_agent/agent_core.py:740-771 | a DIAGNOSING incident becomes DIAGNOSED when its run completed and FAILED when it ended otherwise, any other stays; a hand-over leaves an open task for the run |
| OpsEffects.RequestCancelEffect | app/ops_agent/agent_core.py:794-807 | exactly a queued run is cancelled at once |
| OpsEffects.FailRunEffect | app/ops_agent/services.py:886-916 | an unfinished run and a DIAGNOSING incident fail, nothing else changes |
| OpsEffects.CreatePlanEffect | app/ops_agent/services.py:941-987 | accepted exactly for a well-formed request and a DIAGNOSED incident; adds one DRAFT plan |
| OpsEffects.DryRunPlanEffect | app/ops_agent/services.py:989-1098 | when a dry run is accepted, when it is denied, and the plan, incident and task it leaves |
| OpsEffects.ApprovePlanEffect | app/ops_agent/services.py:1100-1137 | accepted exactly from AWAITING_APPROVAL; the plan becomes EXECUTABLE and its task is done |
| OpsEffects.RejectPlanEffect | app/ops_agent/services.py:1139-1179 | accepted exactly along the edges of plan and incident; the incident returns to DIAGNOSED |
| OpsEffects.CreateExecutionEffect | app/ops_agent/services.py:1181-1250 | an existing key gives its execution back; a new one is accepted exactly for an EXECUTABLE plan |
| OpsEffects.BeginExecutionEffect | app/ops_agent/services.py:1252-1278 | accepted exactly for a PREPARED execution of an incident that awaits approval |
| OpsEffects.RecordFailureEffect | app/ops_agent/services.py:1285-1320 | when a failed deletion is accepted, and the execution, incident and task it leaves |
| OpsEffects.RecordSuccessEffect | app/ops_agent/services.py:1322-1345 | accepted exactly for a RUNNING execution, an EXECUTABLE plan and an incident with an edge to VERIFYING; writes SUCCEEDED, EXECUTED and VERIFYING |
| OpsEffects.RecordVerificationEffect | app/ops_agent/services.py:1357-1406 | when a verification is accepted, and the incident, execution and task it leaves |
| OpsEffects.FailExecutionEffect | app/ops_agent/services.py:1409-1469 | what a job that raised makes of its execution, its incident and their tasks |
| OpsEffects.ResolveIncidentEffect | app/ops_agent/services.py:507-587 | a healthy incident is resolved and its task done, another fails with a task, exactly along the edges |
| OpsEffects.FoundIsAsked | app/ops_agent/services.py:1112-1119 | a task query gives a row of the asked kind, entity and status, and nothing exactly when there is none |
| OpsEffects.SweepEffect | app/ops_agent/recovery.py:36-144 | row by row: the swept runs and executions end, and exactly their DIAGNOSING, REMEDIATING and VERIFYING incidents fail |
| OpsEffects.SweepTasks | app/ops_agent/recovery.py:81-140 | exactly the swept RUNNING runs and the swept executions are handed to a human |
| OpsInvariants.WriteKeepsLog | app/ops_agent/domain.py:270-278 | writing one status along an edge keeps the log a path of every row's state machine |
| OpsInvariants.FinishRunLog | app/ops_agent/agent_core.py:740-757 | finishing validates nothing, yet writes only edges because only a RUNNING run is finished |
| OpsInvariants.RecoverRunLog | app/ops_agent/recovery.py:66-80 | the sweep's unvalidated run writes are edges |
| OpsInvariants.RecoverExecutionLog | app/ops_agent/recovery.py:112-122 | so are its execution and incident writes |
| OpsConsistency.BeginExecutionConsistent | app/ops_agent/services.py:1252-1278 | starting an execution gives a REMEDIATING incident its RUNNING execution and keeps plans accounted |
| OpsConsistency.RecordSuccessConsistent | app/ops_agent/services.py:1322-1345 | success marks the plan EXECUTED together with the only execution that settles it |
| OpsConsistency.FailExecutionConsistent | app/ops_agent/services.py:1409-1469 | a failed job leaves no REMEDIATING incident without an execution |
| OpsConsistency.FinishRunConsistent | app/ops_agent/agent_core.py:740-757 | finishing a run leaves no DIAGNOSING incident without a run and no REMEDIATING one without an execution; what it writes is OpsEffects.FinishRunEffect |
| RemediationInvariants.StepKeepsWorld | app/ops_agent/services.py:465-1469 | every request, job step, alert, sweep and worker death keeps the whole invariant |
| RemediationGuarantees.EveryWriteIsAnEdge | app/ops_agent/domain.py:143-278 | every status write in every run, validated or not, is an edge of TRANSITIONS out of the row's status at that moment |
| RemediationGuarantees.RunningIsEnteredOnce | app/ops_agent/services.py:1252-1265 | an execution enters RUNNING at most once, whatever is delivered or retried |
| RemediationGuarantees.FinishedRunsStay | app/ops_agent/agent_core.py:645-651 | a finished run keeps its status for ever; AWAITING_HUMAN is never cancelled |
| RemediationGuarantees.OneDeletionPerKey | app/ops_agent/services.py:1181-1285 | for one Idempotency-Key delete_pod is invoked at most once |
| RemediationGuarantees.DeletionsAreAuthorised | app/ops_agent/services.py:989-1137 | every deletion belongs to an approved plan with an allowed dry run, on the pod and uid inspected then |
| RemediationGuarantees.PlanExecutedIffOneOutcome | app/ops_agent/services.py:1322-1402 | a plan is EXECUTED exactly when precisely one of its executions succeeded or failed verification, and otherwise none did |
| RemediationGuarantees.NoStrandedWork | app/ops_agent/services.py:766-916 | a DIAGNOSING incident has a started active run, a REMEDIATING one a started RUNNING execution |
| RemediationGuarantees.WaitingIncidentHasAPlan | app/ops_agent/services.py:941-1179 | a PLAN_READY incident has a plan to dry-run, one that awaits approval has a plan to decide on or execute |
| RemediationGuarantees.SweepLeavesVerifyingIff | app/ops_agent/recovery.py:48-144 | a complete sweep leaves an incident VERIFYING exactly when it was and has no RUNNING execution |
| RemediationGuarantees.VerifyingCanStrand | app/ops_agent/recovery.py:48-144 | a reachable world with such an incident: workers idle and no row the sweep would ever find due |
| RemediationGuarantees.SweepClearsEverything | app/ops_agent/recovery.py:36-144 | one sweep past all timeouts, with no row locked, leaves no incident DIAGNOSING or REMEDIATING |
| RemediationOutcomes.DiagnosedByACompletedRun | app/ops_agent/agent_core.py:752-757 | an incident that is DIAGNOSED, planned for, awaiting approval or remediated, or has any plan, has a COMPLETED run |
| RemediationOutcomes.ReturnedDeletionIsRecordedIff | app/ops_agent/services.py:1322-1345 | a worker whose deletion returned records it and goes on to verify exactly when its execution still runs, no execution of the plan has settled and the incident is not VERIFYING, RESOLVED or CLOSED; otherwise nothing changes |
| RemediationOutcomes.DeletionCanGoUnrecorded | app/ops_agent/services.py:470-498 | a reachable world in which a returned deletion is not recorded, because an alert reported the recovery first |
| OpsService.OpsService.ProcessExecution | app/ops_agent/services.py:1252-1407 | deletes exactly when the execution could start, for the first time and on its plan's target, otherwise nothing changes; a successful return leaves execution and incident FAILED, the incident RESOLVED, or them VERIFICATION_FAILED and FAILED, as the cluster answered |
| OpsService.OpsService.BeginExecution | app/ops_agent/services.py:1254-1278 | starts an execution exactly when it is PREPARED and its incident awaits approval |
| OpsService.OpsService.RecordFailure | app/ops_agent/services.py:1285-1320 | accepted exactly for a RUNNING execution of an incident that may fail; then both are FAILED with a verification task, otherwise nothing changes |
| OpsService.OpsService.RecordSuccess | app/ops_agent/services.py:1322-1345 | accepted exactly for a RUNNING execution of an EXECUTABLE plan whose incident may be verified; then execution, plan and incident are SUCCEEDED, EXECUTED and VERIFYING, otherwise nothing changes |
| OpsService.OpsService.RecordVerification | app/ops_agent/services.py:1357-1406 | accepted exactly along the edges of incident and execution; resolves the incident, or fails it together with the execution and files a task; otherwise nothing changes |
| OpsService.OpsService.FailExecution | app/ops_agent/services.py:1409-1469 | afterwards the execution is neither waiting nor running |
| OpsService.OpsService.CreateExecution | app/ops_agent/services.py:1181-1250 | whoever asks with a key gets the one execution that has it, also after losing the insert |
| OpsService.OpsService.CreatePlan | app/ops_agent/services.py:941-987 | succeeds exactly for a well-formed request and a DIAGNOSED incident, which becomes PLAN_READY with a new draft |
| OpsService.OpsService.DryRunPlan | app/ops_agent/services.py:989-1098 | an allowed plan awaits approval and is cleared; a denied one is cancelled and stored as denied |
| OpsService.OpsService.ApprovePlan | app/ops_agent/services.py:1100-1137 | succeeds exactly from AWAITING_APPROVAL, makes the plan executable and closes its approval task |
| OpsService.OpsService.RejectPlan | app/ops_agent/services.py:1139-1179 | a rejected plan returns its incident to DIAGNOSED and cancels no task but its approval |
| OpsService.OpsService.FailAgentRun | app/ops_agent/services.py:886-916 | afterwards the run is finished and its incident no longer DIAGNOSING |
| OpsService.OpsService.BeginDiagnosis | app/ops_agent/services.py:766-782 | begins exactly for a QUEUED run |
| OpsService.OpsService.EndDiagnosis | app/ops_agent/services.py:784-833 | completes exactly a COLLECTING run and leaves its incident not DIAGNOSING |
| OpsService.OpsService.ReceiveResolved | app/ops_agent/services.py:470-498 | every active incident, and no other, becomes VERIFYING |
| OpsService.OpsService.ResolveVerified | app/ops_agent/services.py:507-587 | resolves or fails the incident exactly when that is an edge, and closes or files its verification task as the transaction does |
| OpsService.OpsService.RecoverStuckWorkOnce | app/ops_agent/recovery.py:36-144 | sweeps exactly the due, unlocked rows and counts them; past all timeouts nothing stays DIAGNOSING or REMEDIATING |
| Outbox.Dispatcher.DispatchPendingOnce | app/ops_agent/outbox.py:27-85 | every event of the batch ends PUBLISHED, FAILED or waiting as its payload, its job and the queue decide, all are counted, no other row changes; a crash rolls the rows back but not the queue |
| Outbox.Dispatcher.EnqueueJob | app/ops_agent/queueing.py:6-43 | a remembered job is not added again; an exception of the lookup or of the insert is the caller's |
| Outbox.BatchBecomes | app/ops_agent/outbox.py:53-83 | an event is published exactly when its payload names a job the queue takes or remembers; any other waits 2, 4, 8 ... 128 seconds and fails at the eighth attempt, so the cap of 300 is never reached |
| Outbox.CountsAreTaken | app/ops_agent/outbox.py:53-83 | published counts the events taken, and published and failed add up to the batch |
| Outbox.OneJobPerEventWhileRemembered | app/ops_agent/queueing.py:13-23 | whatever crashes, an event is enqueued at most once plus once per time the queue forgot it |
| Outbox.PublishedWasEnqueued | app/ops_agent/outbox.py:53-83 | a published event was enqueued, an event fails exactly at its eighth attempt, and an undeliverable one is never enqueued |
| Outbox.SettledEventsStay | app/ops_agent/outbox.py:40-52 | along every continuation an event that is no longer pending is never touched or delivered again |
| Intake.OneActiveIncident | app/ops_agent/models.py:73-79 | at most one active incident per fingerprint, however calls and status changes interleave |
| Intake.OccurrencesCountReturns | app/ops_agent/services.py:380-448 | occurrences over a fingerprint add up to the calls that returned |
| Intake.InactiveRowsRest | app/ops_agent/services.py:382-398 | an incident that is no longer active stays so and is no longer counted |
| Intake.IncidentTable.ObserveExisting | app/ops_agent/services.py:380-411 | counts the active incident, if there is one, exactly once |
| Intake.IncidentTable.CreateIncident | app/ops_agent/services.py:348-448 | a call that returns gives an active incident and was itself counted once; a created one is OPEN with one occurrence; it raises only when none is active any more, uncounted |
| RunAgreement.ViewsAgree | app/ops_agent/agent_core.py:713-807 | claimed, finished, cancelled, failed and swept in any order, a run has one status and one start in both views |
| RunAgreement.FailAgrees | app/ops_agent/services.py:886-916 | failing a run is never refused, and both views then have it FAILED unless it was finished |

## Left out

- Flask routes, templates, authentication, metrics, serializers and audit rows: presentation and reporting without state the protocols read.
- Kubernetes, Prometheus, OpenAI, SQLAlchemy and RQ internals: their answers are inputs, a transaction is atomic, and the queue is a set of job ids.
- Lost updates below transaction level: two transactions on one row are serialised in the model.
- JSON Schema, regular expressions, exact JSON text and SHA-256: predicates and functions given as parameters; a fingerprint is the pair it hashes.
- Redaction.SanitizedIsSameIff: the size test on the rendered payload is a parameter; its text is cut as in module TextLimit.
- Redaction.RedactCleans: the inline secret substitution is a parameter, assumed to replace its own placeholder by itself.
- TextLimit.TruncateKeepsLongestPrefix: negative limits slice from the end in the model as in the program, but no caller passes one and nothing is stated about them.
- TextLimit.LogExcerptBounded: the lines matching the keyword expression are a parameter.
- TextLimit.LimitWrapsExactlyOversized: does not say that the envelope re-serialises within the limit, because quoting can enlarge it.
- ContextBuilder.BuiltContextDescribesRun: assumes that sanitizing a context keeps ids, marks and the selection record.
- ContextMemory.FinalAccounting: the context header keeps the fields that change during a run (target uid, remaining budget, tool history); fixed texts are left out.
- ToolOutcomes.EvidenceIsExplained: the source of the alert row, in the program the incident's own, is one constant.
- AgentEffects.CommitEffect: tool name and code of a failed call are stored as they are; the program sanitizes them first, which changes nothing unless one of them holds an inline secret.
- AgentCompletion.RuleDecisionOk: the rules' proposal is any decision; what they actually propose is in modules RuleReasoner and RuleRun.
- AgentDecision.AllowedCallPassesRegistry: the autonomy level is fixed to L2, the only one a run is created with.
- The agent loop's own writes to incidents and tasks are in OpsDatabase, not in AgentDatabase; the lease is in AgentDatabase, not in OpsDatabase, where a claim is one that was granted.
- RuleReasoner.RulesEndWithinSixDecisions: assumes that every tool answers with fresh evidence of the bound resource, that the names of the incident and the uid of its pod contain no executable text, and container lists of objects with integer counts, as the adapter builds them; RuleRun.RulesCallEachToolOnce assumes none of these.
- RuleReasoner.DecisionIsAcceptable: of the schema, the fields of the model; confidence, severity, cause and recommended actions are fixed values of the rules. The pattern for executable text is a parameter on single strings, because no match of it spans the quotes between two of them.
- RuleRun.RulesCallEachToolOnce: assumes that the rules' fixed arguments are clean and within the size limit, as they are unless a name of the incident or the uid of its pod holds an inline secret.
- RunAgreement.ViewsAgree: status and start time only, because stop reason, cancel request and lease are columns of AgentDatabase alone.
- RuleReasoner.CrashVerdictCites: whether the alert or the metric says that Redis is down is a parameter.
- OpsService.OpsService.DryRunPlan: the reason text is left out; the checks of a plan request's fields are one parameter of `OpsDatabase.CreatePlan`.
- Intake.IncidentTable.CreateIncident: severity, title and summary checks come before and change nothing.
- Outbox.Dispatcher.DispatchPendingOnce: error texts are left out; the batch is any result the query may return, with locked rows skipped.
- Idempotency keys of agent runs: `create_agent_run` repeats the key protocol of `create_execution`, which is modelled.
- `EvidenceCollector.collect`, `evaluation.py`, `verification.py`, `auto_remediation.py` (a sequence of modelled requests), migrations, manifests and the demo application: only easy members or configuration.
