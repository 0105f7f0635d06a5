/**
 * Runs on rules alone in the state machine of AgentRun: with any number of workers, whatever the tools
 * answer, expires or fails, no tool is called twice, so a run makes at most five calls.
 */
module RuleRun {
  import opened Common
  import opened Domain
  import opened ContextMemory
  import opened ContextBuilder
  import opened AgentDecision
  import opened AgentDatabase
  import opened AgentRun
  import opened AgentStructure
  import opened AgentTools
  import opened AgentGuarantees
  import R = RuleReasoner

  // ---- The calls the rules make ----

  /** Tools the rules only call when the history has no call of them. */
  predicate AskedOnce(tool: string) { tool == R.QUERY || tool == R.RELATED }

  /** The arguments of every other tool; only the events of a resource are asked for by uid. */
  function FixedArguments(scene: R.Scene, tool: string, uid: Json): Content {
    if tool == R.EVENTS then R.Base(scene)["resource_uid" := uid]
    else if tool == R.LOGS then R.OnPod(scene)["tail_lines" := JNum(200)]
    else if tool == R.WORKLOAD then
      R.Base(scene)["resource_kind" := JStr(scene.resourceKind)]["resource_name" := JStr(scene.target.resourceName)]
    else R.OnPod(scene)
  }

  function ToolsOf(scene: R.Scene): set<string> {
    match scene.kind
    case Pod => {R.QUERY, POD_STATUS_TOOL, R.LOGS, R.EVENTS, R.LIMITS}
    case Workload => {R.QUERY, R.WORKLOAD, R.RELATED}
    case Other => {R.QUERY}
  }

  lemma FiveTools(scene: R.Scene)
    ensures |ToolsOf(scene)| <= 5
  {
  }

  /** A call as the rules make it after `invoked`. */
  predicate RuleCall(scene: R.Scene, invoked: set<string>, d: Decision) {
    d.kind.CallTool? ==>
      && d.tool.Some? && d.tool.value in ToolsOf(scene)
      && (if AskedOnce(d.tool.value) then d.tool.value !in invoked
          else d.arguments == FixedArguments(scene, d.tool.value, UidArgument(d.arguments))
               && (d.tool.value == R.EVENTS ==> Truthy(UidArgument(d.arguments))))
  }

  lemma PodCallIsRuleCall(scene: R.Scene, evidence: seq<Evidence>, invoked: set<string>)
    requires scene.kind.Pod?
    ensures RuleCall(scene, invoked, R.DecidePod(scene, evidence, invoked))
  {
    R.ToolNames();
    R.OtherToolNames();
  }

  lemma RulesMakeRuleCalls(scene: R.Scene, evidence: seq<Evidence>, invoked: set<string>)
    ensures RuleCall(scene, invoked, R.Decide(scene, evidence, invoked))
  {
    R.ToolNames();
    R.OtherToolNames();
    if scene.kind.Pod? {
      PodCallIsRuleCall(scene, evidence, invoked);
    }
  }

  // ---- What a run on rules keeps ----

  function ToolsIn(steps: map<nat, StepRow>): set<string> {
    set n | n in steps && steps[n].invocation.Some? :: steps[n].invocation.value.tool
  }

  /** No tool is called in two steps. */
  ghost predicate OncePerTool(steps: map<nat, StepRow>) {
    forall i, j | i in steps && j in steps && i < j && steps[i].invocation.Some? && steps[j].invocation.Some? ::
      steps[i].invocation.value.tool != steps[j].invocation.value.tool
  }

  predicate HasDecision(pc: Pc) { pc.Decided? || pc.Recorded? || pc.Cleared? }

  /** A call row as the rules make it in a run whose pod is the one of `uid`. */
  predicate RuleRow(scene: R.Scene, uid: Json, i: Invocation) {
    && i.tool in ToolsOf(scene)
    && (!AskedOnce(i.tool) ==> i.sent == i.arguments == FixedArguments(scene, i.tool, uid))
  }

  ghost predicate RuleRows(scene: R.Scene, uid: Json, steps: map<nat, StepRow>) {
    forall n | n in steps && steps[n].invocation.Some? :: RuleRow(scene, uid, steps[n].invocation.value)
  }

  ghost predicate RuleDecisions(scene: R.Scene, s: Sys) {
    forall w | w in s.workers && HasDecision(s.workers[w].pc) ::
      RuleCall(scene, ToolsIn(s.workers[w].pc.f.snap.steps), s.workers[w].pc.d)
  }

  /** Every completed round of a worker was a call, and so is the one it is in. */
  ghost predicate RoundsAreCalls(s: Sys) {
    forall w | w in s.workers ::
      s.workers[w].rounds + (if s.workers[w].pc.ToolRunning? then 1 else 0) <= s.db.run.toolCallsUsed
  }

  ghost predicate Ruled(scene: R.Scene, uid: Json, s: Sys) {
    && RuleDecisions(scene, s) && RuleRows(scene, uid, s.db.steps)
    && OncePerTool(s.db.steps) && RoundsAreCalls(s)
  }

  /** The incident and the registry are the run's; the fixed arguments hold no secret and are within the limit. */
  ghost predicate Played(cfg: Config, scene: R.Scene, uid: Json) {
    && cfg.reasoner.RulesOnly? && cfg.registry == scene.registry && cfg.target == scene.target
    && forall tool :: !AskedOnce(tool) ==>
         StoredAsSent(cfg, FixedArguments(scene, tool, uid))
  }

  /** Whenever the rules are asked in this step they decide on some evidence and on the calls of the snapshot. */
  ghost predicate Proposes(scene: R.Scene, s: Sys, a: Action) {
    a.Rule? && PcOf(s, a.w).Ruling? ==>
      exists evidence :: a.decision == R.Decide(scene, evidence, ToolsIn(PcOf(s, a.w).f.snap.steps))
  }

  ghost predicate OnRules(cfg: Config, scene: R.Scene, s: Sys, trace: seq<Action>)
    decreases |trace|
  {
    trace == [] ||
    (Proposes(scene, s, trace[0])
     && (Step(cfg, s, trace[0]).Some? ==> OnRules(cfg, scene, Step(cfg, s, trace[0]).value, trace[1..])))
  }

  // ---- Decisions ----

  predicate DecisionKept(pc: Pc, pc': Pc) {
    HasDecision(pc') ==> HasDecision(pc) && pc'.f == pc.f && pc'.d == pc.d
  }

  lemma PreparedHoldsNoDecision(cfg: Config, snap: Snapshot, now: int)
    ensures !HasDecision(Prepare(cfg, snap, now))
  {
    PreparedFrame(cfg, snap, now);
  }

  lemma DispatchEndsDecision(cfg: Config, s: Sys, w: WorkerId)
    requires StepDispatch(cfg, s, w).Some?
    ensures var s' := StepDispatch(cfg, s, w).value;
            w in s'.workers && s'.workers == s.workers[w := s'.workers[w]] && !HasDecision(s'.workers[w].pc)
  {
    DispatchShape(cfg, s, w);
  }

  lemma CommitEndsDecision(cfg: Config, s: Sys, w: WorkerId, outcome: Outcome, id: Id)
    requires StepCommit(cfg, s, w, outcome, id).Some?
    ensures var s' := StepCommit(cfg, s, w, outcome, id).value;
            w in s'.workers && s'.workers == s.workers[w := s'.workers[w]] && !HasDecision(s'.workers[w].pc)
  {
    CommitShape(cfg, s, w, outcome, id);
  }

  lemma DecisionsKept(cfg: Config, s: Sys, a: Action, x: WorkerId)
    requires Step(cfg, s, a).Some? && !a.Rule? && !a.Settle?
    ensures DecisionKept(PcOf(s, x), PcOf(Step(cfg, s, a).value, x))
  {
    match a
    case Observe(w) => PreparedHoldsNoDecision(cfg, Snapshot(s.db.run, s.db.steps, s.db.evidence), s.db.now);
    case Insert(w) => InsertShape(cfg, s, w);
    case Dispatch(w) => DispatchEndsDecision(cfg, s, w);
    case Commit(w, outcome, id) => CommitEndsDecision(cfg, s, w, outcome, id);
    case _ =>
  }

  /** On rules alone nobody waits for a model. */
  lemma NobodyAsksAModel(cfg: Config, s: Sys, w: WorkerId)
    requires Structure(cfg, s) && cfg.reasoner.RulesOnly?
    ensures !PcOf(s, w).Deciding? && !PcOf(s, w).InFlight?
  {
    if w in s.workers {
      assert WorkerOk(cfg, s.db, s.calls, w, s.workers[w]);
    }
  }

  lemma RuleKeepsDecisions(cfg: Config, scene: R.Scene, s: Sys, w: WorkerId, proposal: Decision)
    requires RuleDecisions(scene, s) && StepRule(cfg, s, w, proposal).Some? && Proposes(scene, s, Action.Rule(w, proposal))
    ensures RuleDecisions(scene, StepRule(cfg, s, w, proposal).value)
  {
    var f := PcOf(s, w).f;
    var evidence :| proposal == R.Decide(scene, evidence, ToolsIn(f.snap.steps));
    RulesMakeRuleCalls(scene, evidence, ToolsIn(f.snap.steps));
    RuleDecides(cfg, scene, f, s.db.now, proposal);
  }

  lemma RuleDecides(cfg: Config, scene: R.Scene, f: Frame, now: int, proposal: Decision)
    requires RuleCall(scene, ToolsIn(f.snap.steps), proposal)
    ensures var pc := RuleOutcome(cfg, f, now, proposal);
            HasDecision(pc) ==> pc.f == f && RuleCall(scene, ToolsIn(f.snap.steps), pc.d)
  {
  }

  lemma StepKeepsDecisions(cfg: Config, scene: R.Scene, s: Sys, a: Action)
    requires Structure(cfg, s) && cfg.reasoner.RulesOnly? && RuleDecisions(scene, s)
    requires Step(cfg, s, a).Some? && Proposes(scene, s, a)
    ensures RuleDecisions(scene, Step(cfg, s, a).value)
  {
    if a.Rule? {
      RuleKeepsDecisions(cfg, scene, s, a.w, a.decision);
    } else {
      if a.Settle? {
        NobodyAsksAModel(cfg, s, a.w);
      }
      var s' := Step(cfg, s, a).value;
      forall w | w in s'.workers && HasDecision(s'.workers[w].pc)
        ensures RuleCall(scene, ToolsIn(s'.workers[w].pc.f.snap.steps), s'.workers[w].pc.d)
      {
        DecisionsKept(cfg, s, a, w);
      }
    }
  }

  // ---- Calls ----

  lemma StartsMeansCall(cfg: Config, s: Sys, w: WorkerId)
    requires Starts(cfg, s, w)
    ensures PcOf(s, w).Cleared? && PcOf(s, w).d.kind.CallTool?
  {
  }

  /** A started call is a rule call of a tool that no row has called. */
  lemma StartedToolIsNew(cfg: Config, scene: R.Scene, uid: Json, s: Sys, w: WorkerId)
    requires Wired(cfg) && Structure(cfg, s) && Played(cfg, scene, uid)
    requires RuleDecisions(scene, s) && RuleRows(scene, uid, s.db.steps) && Starts(cfg, s, w)
    requires Truthy(s.db.run.targetUid) ==> s.db.run.targetUid == uid
    ensures PcOf(s, w).d.tool.Some?
    ensures var d := PcOf(s, w).d;
            && d.tool.value in ToolsOf(scene) && d.tool.value !in ToolsIn(s.db.steps)
            && (!AskedOnce(d.tool.value) ==> d.arguments == FixedArguments(scene, d.tool.value, uid))
  {
    var f, d := PcOf(s, w).f, PcOf(s, w).d;
    var earlier := s.db.steps - {Sequence(f)};
    StartsMeansCall(cfg, s, w);
    StartedCallGranted(cfg, s, w);
    ClearedIsCurrent(cfg, s, w);
    R.OtherToolNames();
    assert RuleCall(scene, ToolsIn(earlier), d);
    CallIsNew(scene, uid, earlier, d);
    ToolsWithout(s.db.steps, Sequence(f));
  }

  lemma ToolsWithout(steps: map<nat, StepRow>, q: nat)
    requires q in steps && steps[q].invocation.None?
    ensures ToolsIn(steps - {q}) == ToolsIn(steps)
  {
    forall t | t in ToolsIn(steps) ensures t in ToolsIn(steps - {q}) {
      var n :| n in steps && steps[n].invocation.Some? && steps[n].invocation.value.tool == t;
      assert n in steps - {q};
    }
  }

  lemma CallIsNew(scene: R.Scene, uid: Json, earlier: map<nat, StepRow>, d: Decision)
    requires d.kind.CallTool? && RuleCall(scene, ToolsIn(earlier), d) && RuleRows(scene, uid, earlier)
    requires Truthy(UidArgument(d.arguments)) ==> UidArgument(d.arguments) == uid
    requires CallPrint(d.tool.value, d.arguments) !in PreviousPrints(earlier)
    ensures d.tool.value !in ToolsIn(earlier)
    ensures !AskedOnce(d.tool.value) ==> d.arguments == FixedArguments(scene, d.tool.value, uid)
  {
    R.OtherToolNames();
    CalledToolIsPrevious(scene, uid, earlier, d.tool.value);
  }

  lemma CalledToolIsPrevious(scene: R.Scene, uid: Json, earlier: map<nat, StepRow>, tool: string)
    requires RuleRows(scene, uid, earlier)
    ensures !AskedOnce(tool) && tool in ToolsIn(earlier) ==>
              CallPrint(tool, FixedArguments(scene, tool, uid)) in PreviousPrints(earlier)
  {
    if !AskedOnce(tool) && tool in ToolsIn(earlier) {
      var n :| n in earlier && earlier[n].invocation.Some? && earlier[n].invocation.value.tool == tool;
      assert RuleRow(scene, uid, earlier[n].invocation.value);
    }
  }

  lemma FixedArgumentsStay(cfg: Config, scene: R.Scene, uid: Json, tool: string)
    requires Wired(cfg) && Played(cfg, scene, uid)
    ensures var arguments := FixedArguments(scene, tool, uid);
            !AskedOnce(tool) ==> cfg.sanitizeArguments(arguments) == arguments
  {
    StoredAsSentIff(cfg, FixedArguments(scene, tool, uid));
  }

  lemma StartKeepsRows(cfg: Config, scene: R.Scene, uid: Json, s: Sys, w: WorkerId)
    requires Wired(cfg) && Structure(cfg, s) && Played(cfg, scene, uid) && Ruled(scene, uid, s) && Starts(cfg, s, w)
    requires Truthy(s.db.run.targetUid) ==> s.db.run.targetUid == uid
    ensures var steps := StepDispatch(cfg, s, w).value.db.steps;
            RuleRows(scene, uid, steps) && OncePerTool(steps)
  {
    StartedToolIsNew(cfg, scene, uid, s, w);
    StartedShape(cfg, s, w);
    DispatchShape(cfg, s, w);
    ClearedIsCurrent(cfg, s, w);
    FixedArgumentsStay(cfg, scene, uid, PcOf(s, w).d.tool.value);
    AddedCall(scene, uid, s.db.steps, StepDispatch(cfg, s, w).value.db.steps, Sequence(PcOf(s, w).f));
  }

  lemma AddedCall(scene: R.Scene, uid: Json, steps: map<nat, StepRow>, steps': map<nat, StepRow>, q: nat)
    requires RuleRows(scene, uid, steps) && OncePerTool(steps) && q in steps && steps[q].invocation.None?
    requires q in steps' && steps' == steps[q := steps'[q]] && steps'[q].invocation.Some?
    requires RuleRow(scene, uid, steps'[q].invocation.value)
    requires steps'[q].invocation.value.tool !in ToolsIn(steps)
    ensures RuleRows(scene, uid, steps') && OncePerTool(steps')
  {
    forall i, j | i in steps' && j in steps' && i < j && steps'[i].invocation.Some? && steps'[j].invocation.Some?
      ensures steps'[i].invocation.value.tool != steps'[j].invocation.value.tool
    {
      if j == q {
        assert steps[i].invocation.value.tool in ToolsIn(steps);
      } else if i == q {
        assert steps[j].invocation.value.tool in ToolsIn(steps);
      }
    }
  }

  lemma CallsKept(cfg: Config, s: Sys, a: Action)
    requires Structure(cfg, s) && Step(cfg, s, a).Some? && !(a.Dispatch? && Starts(cfg, s, a.w))
    ensures SameCalls(s.db.steps, Step(cfg, s, a).value.db.steps)
  {
    if PlainAction(a) {
      PlainStep(cfg, s, a);
    } else {
      match a
      case Insert(w) => InsertShape(cfg, s, w);
      case Reserve(w) => AccountShape(cfg, s, Step(cfg, s, a).value, w);
      case Settle(w, answer) => AccountShape(cfg, s, Step(cfg, s, a).value, w);
      case Dispatch(w) => DispatchClosedCalls(cfg, s, w);
      case Commit(w, outcome, id) => CommitKeepsCalls(cfg, s, w, outcome, id);
    }
  }

  lemma CommitKeepsCalls(cfg: Config, s: Sys, w: WorkerId, outcome: Outcome, id: Id)
    requires StepCommit(cfg, s, w, outcome, id).Some?
    ensures SameCalls(s.db.steps, StepCommit(cfg, s, w, outcome, id).value.db.steps)
  {
    CommitShape(cfg, s, w, outcome, id);
  }

  lemma SameCallsKeepRows(scene: R.Scene, uid: Json, steps: map<nat, StepRow>, steps': map<nat, StepRow>)
    requires SameCalls(steps, steps') && RuleRows(scene, uid, steps) && OncePerTool(steps)
    ensures RuleRows(scene, uid, steps') && OncePerTool(steps')
  {
  }

  lemma StepKeepsRows(cfg: Config, scene: R.Scene, uid: Json, s: Sys, a: Action)
    requires Wired(cfg) && Structure(cfg, s) && Played(cfg, scene, uid) && Ruled(scene, uid, s) && Step(cfg, s, a).Some?
    requires Truthy(s.db.run.targetUid) ==> s.db.run.targetUid == uid
    ensures var steps := Step(cfg, s, a).value.db.steps; RuleRows(scene, uid, steps) && OncePerTool(steps)
  {
    if a.Dispatch? && Starts(cfg, s, a.w) {
      StartKeepsRows(cfg, scene, uid, s, a.w);
    } else {
      CallsKept(cfg, s, a);
      SameCallsKeepRows(scene, uid, s.db.steps, Step(cfg, s, a).value.db.steps);
    }
  }

  // ---- Rounds ----

  /** Nobody completes a round or starts a call. */
  ghost predicate RoundsFrame(s: Sys, s': Sys) {
    && s'.db.run.toolCallsUsed == s.db.run.toolCallsUsed
    && forall w | w in s'.workers ::
         s'.workers[w].rounds <= RoundsOf(s, w) && (s'.workers[w].pc.ToolRunning? ==> PcOf(s, w).ToolRunning?)
  }

  lemma FrameKeepsRounds(s: Sys, s': Sys)
    requires RoundsAreCalls(s) && RoundsFrame(s, s')
    ensures RoundsAreCalls(s')
  {
    forall w | w in s'.workers
      ensures s'.workers[w].rounds + (if s'.workers[w].pc.ToolRunning? then 1 else 0) <= s'.db.run.toolCallsUsed
    {
      if w in s.workers {
        assert s.workers[w].rounds + (if s.workers[w].pc.ToolRunning? then 1 else 0) <= s.db.run.toolCallsUsed;
      }
    }
  }

  lemma ObserveRounds(cfg: Config, s: Sys, w: WorkerId)
    requires StepObserve(cfg, s, w).Some?
    ensures RoundsFrame(s, StepObserve(cfg, s, w).value)
  {
    PreparedFrame(cfg, Snapshot(s.db.run, s.db.steps, s.db.evidence), s.db.now);
  }

  lemma InsertRounds(cfg: Config, s: Sys, w: WorkerId)
    requires StepInsert(cfg, s, w).Some?
    ensures RoundsFrame(s, StepInsert(cfg, s, w).value)
  {
  }

  lemma OtherRounds(cfg: Config, s: Sys, a: Action)
    requires Step(cfg, s, a).Some? && !a.Dispatch? && !a.Commit?
    ensures RoundsFrame(s, Step(cfg, s, a).value)
  {
    match a
    case Observe(w) => ObserveRounds(cfg, s, w);
    case Insert(w) => InsertRounds(cfg, s, w);
    case _ =>
  }

  lemma StepKeepsRounds(cfg: Config, s: Sys, a: Action)
    requires RoundsAreCalls(s) && Step(cfg, s, a).Some?
    ensures RoundsAreCalls(Step(cfg, s, a).value)
  {
    if a.Dispatch? {
      DispatchKeepsRounds(cfg, s, a.w);
    } else if a.Commit? {
      CommitKeepsRounds(cfg, s, a.w, a.outcome, a.id);
    } else {
      OtherRounds(cfg, s, a);
      FrameKeepsRounds(s, Step(cfg, s, a).value);
    }
  }

  lemma DispatchKeepsRounds(cfg: Config, s: Sys, w: WorkerId)
    requires RoundsAreCalls(s) && StepDispatch(cfg, s, w).Some?
    ensures RoundsAreCalls(StepDispatch(cfg, s, w).value)
  {
    DispatchShape(cfg, s, w);
  }

  lemma CommitKeepsRounds(cfg: Config, s: Sys, w: WorkerId, outcome: Outcome, id: Id)
    requires RoundsAreCalls(s) && StepCommit(cfg, s, w, outcome, id).Some?
    ensures RoundsAreCalls(StepCommit(cfg, s, w, outcome, id).value)
  {
    CommitShape(cfg, s, w, outcome, id);
  }

  // ---- Whole runs ----

  lemma {:induction false} RunStaysRuled(cfg: Config, scene: R.Scene, uid: Json, s: Sys, trace: seq<Action>)
    requires Wired(cfg) && Invariant(cfg, s) && Played(cfg, scene, uid) && Ruled(scene, uid, s)
    requires OnRules(cfg, scene, s, trace) && Run(cfg, s, trace).Some?
    requires Truthy(Run(cfg, s, trace).value.db.run.targetUid) ==> Run(cfg, s, trace).value.db.run.targetUid == uid
    ensures Ruled(scene, uid, Run(cfg, s, trace).value)
    decreases |trace|
  {
    if trace != [] {
      RunExtends(cfg, s, trace);
      StepKeepsInvariant(cfg, s, trace[0]);
      StepKeepsRules(cfg, scene, uid, s, trace[0]);
      RunStaysRuled(cfg, scene, uid, Step(cfg, s, trace[0]).value, trace[1..]);
    }
  }

  lemma StepKeepsRules(cfg: Config, scene: R.Scene, uid: Json, s: Sys, a: Action)
    requires Wired(cfg) && Structure(cfg, s) && Played(cfg, scene, uid) && Ruled(scene, uid, s)
    requires Step(cfg, s, a).Some? && Proposes(scene, s, a)
    requires Truthy(s.db.run.targetUid) ==> s.db.run.targetUid == uid
    ensures Ruled(scene, uid, Step(cfg, s, a).value)
  {
    StepKeepsDecisions(cfg, scene, s, a);
    StepKeepsRows(cfg, scene, uid, s, a);
    StepKeepsRounds(cfg, s, a);
  }

  /** The calls of the steps 1..n, each of its own tool, are as many as their tools. */
  lemma {:induction false} CallsAreTools(steps: map<nat, StepRow>, n: nat) returns (tools: set<string>)
    requires OncePerTool(steps)
    ensures |tools| == Invocations(steps, n)
    ensures forall t | t in tools ::
              exists k | 1 <= k <= n && k in steps :: steps[k].invocation.Some? && steps[k].invocation.value.tool == t
  {
    tools := {};
    if n > 0 {
      tools := CallsAreTools(steps, n - 1);
      if n in steps && steps[n].invocation.Some? {
        assert steps[n].invocation.value.tool !in tools;
        tools := tools + {steps[n].invocation.value.tool};
      }
    }
  }

  lemma SmallerSet<T>(a: set<T>, b: set<T>)
    requires a <= b
    ensures |a| <= |b|
  {
    if a != {} {
      var x :| x in a;
      SmallerSet(a - {x}, b - {x});
    }
  }

  lemma RuledIsShort(scene: R.Scene, s: Sys, w: WorkerId)
    requires Ruled(scene, s.db.run.targetUid, s) && Counted(s)
    ensures OncePerTool(s.db.steps) && RoundsOf(s, w) <= s.db.run.toolCallsUsed <= |ToolsOf(scene)| <= 5
  {
    var uid := s.db.run.targetUid;
    var tools := CallsAreTools(s.db.steps, s.db.run.currentStep + 1);
    forall t | t in tools ensures t in ToolsOf(scene) {
      var k :| 1 <= k && k in s.db.steps && s.db.steps[k].invocation.Some? && s.db.steps[k].invocation.value.tool == t;
      assert RuleRow(scene, uid, s.db.steps[k].invocation.value);
    }
    SmallerSet(tools, ToolsOf(scene));
    FiveTools(scene);
  }

  /**
   * On rules alone, with any number of workers and whatever the tools answer, expire or fail, no tool
   * is called twice: a run makes at most five calls, and one call of `process` at most five rounds
   * before the one it ends in.
   */
  lemma RulesCallEachToolOnce(cfg: Config, scene: R.Scene, init: Sys, trace: seq<Action>, w: WorkerId)
    requires Wired(cfg) && Init(cfg, init) && Run(cfg, init, trace).Some? && OnRules(cfg, scene, init, trace)
    requires Played(cfg, scene, Run(cfg, init, trace).value.db.run.targetUid)
    ensures var s := Run(cfg, init, trace).value;
            && OncePerTool(s.db.steps)
            && RoundsOf(s, w) <= s.db.run.toolCallsUsed <= |ToolsOf(scene)| <= 5
  {
    InitInvariant(cfg, init);
    RunKeepsInvariant(cfg, init, trace);
    RunStaysRuled(cfg, scene, Run(cfg, init, trace).value.db.run.targetUid, init, trace);
    RuledIsShort(scene, Run(cfg, init, trace).value, w);
  }
}
