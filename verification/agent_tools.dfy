/**
 * The tool history of a run: counted exactly, within budget, confined to the incident's target,
 * without repetition, and on one resource uid.
 */
module AgentTools {
  import opened Common
  import opened Domain
  import opened ContextMemory
  import opened ContextBuilder
  import opened AgentDecision
  import Redaction
  import D = AgentDatabase
  import opened AgentDatabase
  import opened AgentRun
  import opened AgentStructure

  /** Number of invocation rows among the steps 1..n. */
  function Invocations(steps: map<nat, StepRow>, n: nat): nat {
    if n == 0 then 0
    else Invocations(steps, n - 1) + (if n in steps && steps[n].invocation.Some? then 1 else 0)
  }

  lemma {:induction false} InvocationsSame(steps: map<nat, StepRow>, steps': map<nat, StepRow>, n: nat)
    requires forall k | 1 <= k <= n ::
               (k in steps && steps[k].invocation.Some?) <==> (k in steps' && steps'[k].invocation.Some?)
    ensures Invocations(steps, n) == Invocations(steps', n)
  {
    if n > 0 {
      InvocationsSame(steps, steps', n - 1);
    }
  }

  /** The call as stored, with its arguments sanitized, and as sent. */
  function StoredPrint(i: Invocation): CallPrint { CallPrint(i.tool, i.arguments) }

  function SentPrint(i: Invocation): CallPrint { CallPrint(i.tool, i.sent) }

  ghost predicate Counted(s: Sys) {
    && s.db.run.toolCallsUsed == Invocations(s.db.steps, s.db.run.currentStep + 1)
    && s.db.run.toolCallsUsed <= s.db.run.maxToolCalls
  }

  /** No call is sent with what is stored for an earlier one. */
  ghost predicate NoRepeats(steps: map<nat, StepRow>) {
    forall i, j | i in steps && j in steps && i < j && steps[i].invocation.Some? && steps[j].invocation.Some? ::
      StoredPrint(steps[i].invocation.value) != SentPrint(steps[j].invocation.value)
  }

  /** A call stays inside the incident's scope, a uid it names is the one bound to the run, and it is stored sanitized. */
  ghost predicate Confined(cfg: Config, uid: Json, i: Invocation) {
    && i.arguments == cfg.sanitizeArguments(i.sent)
    && i.tool in cfg.registry && InScope(cfg.registry[i.tool], cfg.target, i.sent)
    && (Truthy(UidArgument(i.sent)) ==> Truthy(uid) && UidArgument(i.sent) == uid)
  }

  ghost predicate AllConfined(cfg: Config, s: Sys) {
    forall n | n in s.db.steps && s.db.steps[n].invocation.Some? ::
      Confined(cfg, s.db.run.targetUid, s.db.steps[n].invocation.value)
  }

  ghost predicate ToolHistory(cfg: Config, s: Sys) {
    Counted(s) && NoRepeats(s.db.steps) && AllConfined(cfg, s)
  }

  /** Two step tables with the same calls. */
  ghost predicate SameCalls(steps: map<nat, StepRow>, steps': map<nat, StepRow>) {
    forall n | n in steps || n in steps' ::
      && ((n in steps && steps[n].invocation.Some?) <==> (n in steps' && steps'[n].invocation.Some?))
      && (n in steps && steps[n].invocation.Some? && n in steps' ==>
            var i, i' := steps[n].invocation.value, steps'[n].invocation.value;
            i.tool == i'.tool && i.sent == i'.sent && i.arguments == i'.arguments)
  }

  lemma ToolFrame(cfg: Config, s: Sys, s': Sys)
    requires ToolHistory(cfg, s) && SameCalls(s.db.steps, s'.db.steps)
    requires s'.db.run.toolCallsUsed == s.db.run.toolCallsUsed && SameLimits(s.db.run, s'.db.run)
    requires s.db.run.currentStep <= s'.db.run.currentStep <= s.db.run.currentStep + 1
    requires s.db.run.currentStep + 2 !in s.db.steps
    requires Truthy(s.db.run.targetUid) ==> s'.db.run.targetUid == s.db.run.targetUid
    ensures ToolHistory(cfg, s')
  {
    InvocationsSame(s.db.steps, s'.db.steps, s'.db.run.currentStep + 1);
    forall n | n in s'.db.steps && s'.db.steps[n].invocation.Some?
      ensures Confined(cfg, s'.db.run.targetUid, s'.db.steps[n].invocation.value)
    {
      assert Confined(cfg, s.db.run.targetUid, s.db.steps[n].invocation.value);
    }
  }

  lemma StepsBounded(cfg: Config, s: Sys)
    requires Structure(cfg, s)
    ensures s.db.run.currentStep + 2 !in s.db.steps
  {
  }

  /** The call is confined and was not made before. */
  ghost predicate Granted(cfg: Config, i: PolicyInput) {
    && i.tool in cfg.registry && InScope(cfg.registry[i.tool], cfg.target, i.arguments)
    && (Truthy(UidArgument(i.arguments)) ==> Truthy(i.boundUid) && UidArgument(i.arguments) == i.boundUid)
    && i.used < i.budget && CallPrint(i.tool, i.arguments) !in i.previous
  }

  lemma PolicyOfWired(cfg: Config, i: PolicyInput)
    requires Wired(cfg) && cfg.evaluate(i).Allow?
    ensures Granted(cfg, i)
  {
    PolicyExactly(cfg.registry[i.tool], cfg.target, i.boundUid, i.used, i.budget, i.tool, i.arguments, i.previous);
  }

  predicate Starts(cfg: Config, s: Sys, w: WorkerId) {
    StepDispatch(cfg, s, w).Some? && StepDispatch(cfg, s, w).value.workers[w].pc.ToolRunning?
  }

  lemma StartedShape(cfg: Config, s: Sys, w: WorkerId)
    requires Starts(cfg, s, w)
    ensures PcOf(s, w).Cleared? && Sequence(PcOf(s, w).f) in s.db.steps
    ensures var s', f, d := StepDispatch(cfg, s, w).value, PcOf(s, w).f, PcOf(s, w).d;
            && DispatchStarts(cfg, s.db, f, d, s'.db, s'.workers[w].pc)
            && Sequence(f) in s'.db.steps
            && s'.db.steps[Sequence(f)].invocation ==
                 Some(Invocation(d.tool.value, d.arguments, cfg.sanitizeArguments(d.arguments),
                                 InvocationStatus.Running, None, ""))
            && s'.db.run.toolCallsUsed == s.db.run.toolCallsUsed + 1
  {
    DispatchShape(cfg, s, w);
  }

  /** The snapshot a decision is judged on is the database without the worker's own row. */
  lemma ClearedIsCurrent(cfg: Config, s: Sys, w: WorkerId)
    requires Structure(cfg, s) && PcOf(s, w).Cleared?
    ensures var f := PcOf(s, w).f;
            && Sequence(f) == s.db.run.currentStep + 1 && Sequence(f) in s.db.steps
            && s.db.steps[Sequence(f)].invocation.None?
            && f.snap.steps == s.db.steps - {Sequence(f)}
            && f.snap.run.targetUid == s.db.run.targetUid
            && f.snap.run.toolCallsUsed == s.db.run.toolCallsUsed
            && f.snap.run.maxToolCalls == s.db.run.maxToolCalls
  {
    assert WorkerOk(cfg, s.db, s.calls, w, s.workers[w]);
  }

  /** What a started call is: the policy saw all earlier calls, the current counters and the bound uid. */
  lemma StartedCallGranted(cfg: Config, s: Sys, w: WorkerId)
    requires Wired(cfg) && Structure(cfg, s) && Starts(cfg, s, w)
    ensures PcOf(s, w).d.tool.Some?
    ensures var f, d := PcOf(s, w).f, PcOf(s, w).d;
            Granted(cfg, PolicyInput(s.db.run.targetUid, s.db.run.toolCallsUsed, s.db.run.maxToolCalls,
                                     d.tool.value, d.arguments, PreviousPrints(s.db.steps - {Sequence(f)})))
  {
    StartedShape(cfg, s, w);
    DispatchShape(cfg, s, w);
    ClearedIsCurrent(cfg, s, w);
    PolicyOfWired(cfg, InputOf(PcOf(s, w).f, PcOf(s, w).d));
  }

  lemma StartKeepsTools(cfg: Config, s: Sys, w: WorkerId)
    requires Wired(cfg) && Structure(cfg, s) && ToolHistory(cfg, s) && Starts(cfg, s, w)
    ensures ToolHistory(cfg, StepDispatch(cfg, s, w).value)
  {
    var s', n := StepDispatch(cfg, s, w).value, Sequence(PcOf(s, w).f);
    StartedShape(cfg, s, w);
    StartedCallGranted(cfg, s, w);
    DispatchShape(cfg, s, w);
    ClearedIsCurrent(cfg, s, w);
    assert forall k | k in s.db.steps :: k <= n;
    NewCallKeeps(cfg, s, s', n);
  }

  /** Adding a granted call to the last row keeps the history. */
  lemma NewCallKeeps(cfg: Config, s: Sys, s': Sys, n: nat)
    requires ToolHistory(cfg, s) && n == s.db.run.currentStep + 1 && n in s.db.steps
    requires s.db.steps[n].invocation.None? && forall k | k in s.db.steps :: k <= n
    requires n in s'.db.steps && s'.db.steps == s.db.steps[n := s'.db.steps[n]] && s'.db.steps[n].invocation.Some?
    requires s'.db.run.toolCallsUsed == s.db.run.toolCallsUsed + 1 && s'.db.run.currentStep == s.db.run.currentStep
    requires s'.db.run.targetUid == s.db.run.targetUid && SameLimits(s.db.run, s'.db.run)
    requires s'.db.steps[n].invocation.value.arguments == cfg.sanitizeArguments(s'.db.steps[n].invocation.value.sent)
    requires var i := s'.db.steps[n].invocation.value;
             Granted(cfg, PolicyInput(s.db.run.targetUid, s.db.run.toolCallsUsed, s.db.run.maxToolCalls,
                                      i.tool, i.sent, PreviousPrints(s.db.steps - {n})))
    ensures ToolHistory(cfg, s')
  {
    InvocationsSame(s.db.steps, s'.db.steps, n - 1);
    NewCallIsNew(s.db.steps, s'.db.steps, n);
    forall k | k in s'.db.steps && s'.db.steps[k].invocation.Some?
      ensures Confined(cfg, s'.db.run.targetUid, s'.db.steps[k].invocation.value)
    {
    }
  }

  /** Sanitizing leaves these arguments alone: they hold no secret and are within the size limit. */
  predicate StoredAsSent(cfg: Config, arguments: Content) {
    Redaction.Clean(cfg.secrets, JObj(arguments)) && cfg.oversize(arguments).None?
  }

  /** Arguments that name a cluster, as those of every call in scope do, are stored as sent exactly then. */
  lemma StoredAsSentIff(cfg: Config, arguments: Content)
    requires Wired(cfg) && "cluster" in arguments
    ensures cfg.sanitizeArguments(arguments) == arguments <==> StoredAsSent(cfg, arguments)
  {
    assert |"cluster"| == 7 && |"data"| == 4 && |"truncated"| == 9 && |"original_bytes"| == 14;
    Redaction.SanitizedIsSameIff(cfg.secrets, cfg.oversize, arguments, "cluster");
  }

  /** Another call with the same arguments is the only one that is stored as this call is sent. */
  ghost predicate OnlyRepeats(s: Sys, call: CallPrint) {
    forall n | n in s.db.steps && s.db.steps[n].invocation.Some? && StoredPrint(s.db.steps[n].invocation.value) == call ::
      SentPrint(s.db.steps[n].invocation.value) == call
  }

  /**
   * The duplicate check compares a call as sent with earlier ones as stored: a repeat that is in scope,
   * on the bound uid and within budget is started exactly when its arguments hold a secret or are over
   * the size limit, so that sanitizing changed them.
   */
  lemma RepeatStartsIffSanitizingChangedIt(cfg: Config, s: Sys, w: WorkerId, n: nat)
    requires Wired(cfg) && Structure(cfg, s) && ToolHistory(cfg, s)
    requires PcOf(s, w).Cleared? && PcOf(s, w).d.kind.CallTool? && !Blank(PcOf(s, w).d.tool)
    requires n in s.db.steps && s.db.steps[n].invocation.Some?
    requires SentPrint(s.db.steps[n].invocation.value) == CallPrint(PcOf(s, w).d.tool.value, PcOf(s, w).d.arguments)
    requires OnlyRepeats(s, CallPrint(PcOf(s, w).d.tool.value, PcOf(s, w).d.arguments))
    requires s.db.run.toolCallsUsed < s.db.run.maxToolCalls
    ensures Starts(cfg, s, w) <==> !StoredAsSent(cfg, PcOf(s, w).d.arguments)
  {
    var f, d := PcOf(s, w).f, PcOf(s, w).d;
    var i := s.db.steps[n].invocation.value;
    ClearedIsCurrent(cfg, s, w);
    assert Confined(cfg, s.db.run.targetUid, i);
    var input := InputOf(f, d);
    PolicyExactly(cfg.registry[i.tool], cfg.target, input.boundUid, input.used, input.budget, input.tool,
                  input.arguments, input.previous);
    RepeatIsPrevious(cfg, s, n, s.db.steps - {Sequence(f)}, SentPrint(i));
    StoredAsSentIff(cfg, d.arguments);
    StartsWhenAllowed(cfg, s, w);
  }

  lemma StartsWhenAllowed(cfg: Config, s: Sys, w: WorkerId)
    requires PcOf(s, w).Cleared? && PcOf(s, w).d.kind.CallTool? && !Blank(PcOf(s, w).d.tool)
    requires PcOf(s, w).d.tool.value in cfg.registry
    requires Sequence(PcOf(s, w).f) in s.db.steps && s.db.steps[Sequence(PcOf(s, w).f)].invocation.None?
    ensures Starts(cfg, s, w) <==> cfg.evaluate(InputOf(PcOf(s, w).f, PcOf(s, w).d)).Allow?
  {
  }

  lemma RepeatIsPrevious(cfg: Config, s: Sys, n: nat, earlier: map<nat, StepRow>, call: CallPrint)
    requires ToolHistory(cfg, s) && n in earlier && earlier.Keys <= s.db.steps.Keys
    requires forall k | k in earlier :: earlier[k] == s.db.steps[k]
    requires earlier[n].invocation.Some? && SentPrint(earlier[n].invocation.value) == call && OnlyRepeats(s, call)
    ensures call in PreviousPrints(earlier) <==> cfg.sanitizeArguments(call.arguments) == call.arguments
  {
    assert Confined(cfg, s.db.run.targetUid, earlier[n].invocation.value);
    if call in PreviousPrints(earlier) {
      var k :| k in earlier && earlier[k].invocation.Some? && StoredPrint(earlier[k].invocation.value) == call;
      assert Confined(cfg, s.db.run.targetUid, s.db.steps[k].invocation.value);
    }
    if cfg.sanitizeArguments(call.arguments) == call.arguments {
      assert StoredPrint(earlier[n].invocation.value) == call;
    }
  }

  lemma DispatchKeepsTools(cfg: Config, s: Sys, w: WorkerId)
    requires Wired(cfg) && Structure(cfg, s) && ToolHistory(cfg, s) && StepDispatch(cfg, s, w).Some?
    ensures ToolHistory(cfg, StepDispatch(cfg, s, w).value)
  {
    if Starts(cfg, s, w) {
      StartKeepsTools(cfg, s, w);
    } else {
      DispatchShape(cfg, s, w);
      ClearedIsCurrent(cfg, s, w);
      StepsBounded(cfg, s);
      DispatchClosedCalls(cfg, s, w);
      ToolFrame(cfg, s, StepDispatch(cfg, s, w).value);
    }
  }

  lemma DispatchClosedCalls(cfg: Config, s: Sys, w: WorkerId)
    requires StepDispatch(cfg, s, w).Some? && !Starts(cfg, s, w)
    ensures SameCalls(s.db.steps, StepDispatch(cfg, s, w).value.db.steps)
    ensures StepDispatch(cfg, s, w).value.db.run.toolCallsUsed == s.db.run.toolCallsUsed
  {
    DispatchShape(cfg, s, w);
  }

  lemma NewCallIsNew(steps: map<nat, StepRow>, steps': map<nat, StepRow>, n: nat)
    requires NoRepeats(steps) && n in steps && steps[n].invocation.None?
    requires forall k | k in steps :: k <= n
    requires n in steps' && steps' == steps[n := steps'[n]] && steps'[n].invocation.Some?
    requires var i := steps'[n].invocation.value;
             CallPrint(i.tool, i.sent) !in PreviousPrints(steps - {n})
    ensures NoRepeats(steps')
  {
    var i := steps'[n].invocation.value;
    forall k | k in steps && k < n && steps[k].invocation.Some?
      ensures StoredPrint(steps[k].invocation.value) != CallPrint(i.tool, i.sent)
    {
      assert k in steps - {n};
      assert StoredPrint(steps[k].invocation.value) in PreviousPrints(steps - {n});
    }
  }

  lemma CommitKeepsTools(cfg: Config, s: Sys, w: WorkerId, outcome: Outcome, id: Id)
    requires Structure(cfg, s) && ToolHistory(cfg, s) && StepCommit(cfg, s, w, outcome, id).Some?
    ensures ToolHistory(cfg, StepCommit(cfg, s, w, outcome, id).value)
  {
    assert WorkerOk(cfg, s.db, s.calls, w, s.workers[w]);
    CommitShape(cfg, s, w, outcome, id);
    StepsBounded(cfg, s);
    ToolFrame(cfg, s, StepCommit(cfg, s, w, outcome, id).value);
  }

  lemma InsertKeepsTools(cfg: Config, s: Sys, w: WorkerId)
    requires Structure(cfg, s) && ToolHistory(cfg, s) && StepInsert(cfg, s, w).Some?
    ensures ToolHistory(cfg, StepInsert(cfg, s, w).value)
  {
    InsertShape(cfg, s, w);
    StepsBounded(cfg, s);
    ToolFrame(cfg, s, StepInsert(cfg, s, w).value);
  }

  lemma AccountKeepsTools(cfg: Config, s: Sys, s': Sys, w: WorkerId)
    requires Structure(cfg, s) && ToolHistory(cfg, s)
    requires StepReserve(cfg, s, w) == Some(s') || exists answer :: StepSettle(cfg, s, w, answer) == Some(s')
    ensures ToolHistory(cfg, s')
  {
    AccountShape(cfg, s, s', w);
    StepsBounded(cfg, s);
    ToolFrame(cfg, s, s');
  }

  lemma PlainKeepsTools(cfg: Config, s: Sys, s': Sys)
    requires Structure(cfg, s) && ToolHistory(cfg, s) && Plain(s, s')
    ensures ToolHistory(cfg, s')
  {
    StepsBounded(cfg, s);
    ToolFrame(cfg, s, s');
  }

  lemma StepKeepsTools(cfg: Config, s: Sys, a: Action)
    requires Wired(cfg) && Structure(cfg, s) && ToolHistory(cfg, s) && Step(cfg, s, a).Some?
    ensures ToolHistory(cfg, Step(cfg, s, a).value)
  {
    match a
    case Insert(w) => InsertKeepsTools(cfg, s, w);
    case Reserve(w) => AccountKeepsTools(cfg, s, Step(cfg, s, a).value, w);
    case Settle(w, answer) => AccountKeepsTools(cfg, s, Step(cfg, s, a).value, w);
    case Dispatch(w) => DispatchKeepsTools(cfg, s, w);
    case Commit(w, outcome, id) => CommitKeepsTools(cfg, s, w, outcome, id);
    case _ =>
      PlainStep(cfg, s, a);
      PlainKeepsTools(cfg, s, Step(cfg, s, a).value);
  }

  /** The resource uid is bound at most once: no step of any worker changes a non-empty uid. */
  lemma UidWrittenOnce(cfg: Config, s: Sys, a: Action)
    requires Structure(cfg, s) && Step(cfg, s, a).Some? && Truthy(s.db.run.targetUid)
    ensures Step(cfg, s, a).value.db.run.targetUid == s.db.run.targetUid
  {
    match a
    case Insert(w) => InsertShape(cfg, s, w);
    case Reserve(w) => AccountShape(cfg, s, Step(cfg, s, a).value, w);
    case Settle(w, answer) => AccountShape(cfg, s, Step(cfg, s, a).value, w);
    case Dispatch(w) => DispatchShape(cfg, s, w);
    case Commit(w, outcome, id) => CommitShape(cfg, s, w, outcome, id);
    case _ => PlainStep(cfg, s, a);
  }
}
