/**
 * A run that makes the same tool call twice: the incident's resource name looks like an assignment to a
 * password, so the arguments are stored redacted and the second call does not equal the first.
 */
module AgentRepeat {
  import opened Common
  import opened Domain
  import opened ContextMemory
  import opened ContextBuilder
  import opened AgentDecision
  import Redaction
  import D = AgentDatabase
  import opened AgentDatabase
  import opened AgentRun
  import opened AgentTools
  import opened AgentGuarantees
  import opened AgentLastStep

  // ---- The call and its redaction ----

  const METRICS := "query_prometheus"

  const TARGET := Target("c", "n", "password=x")

  const SCOPE: Content := Arguments("password=x")

  /** The arguments as they are stored. */
  const STORED: Content := Arguments("password=[REDACTED]")

  function Arguments(resourceName: string): Content {
    map["cluster" := JStr("c"), "namespace" := JStr("n"), "query_name" := JStr("redis_up"),
        "resource_name" := JStr(resourceName)]
  }

  const SENSITIVE_KEYS := {
    "authorization", "cookie", "set-cookie", "password", "passwd", "pwd", "token", "access_token", "refresh_token",
    "api_key", "apikey", "secret", "client_secret"}

  const ASSIGNMENT := "password="

  /** A password assignment up to the end of the string: one form of string the inline expression matches. */
  predicate Assigns(s: string) {
    && ASSIGNMENT < s
    && forall i | |ASSIGNMENT| <= i < |s| :: s[i] != ' ' && s[i] != ',' && s[i] != ';'
  }

  /** The program's redaction, as far as strings of this call go. */
  const INLINE := Redaction.Secrets(
    (key: string) => key in SENSITIVE_KEYS, (s: string) => Assigns(s), (s: string) => ASSIGNMENT + Redaction.REDACTED)

  lemma PlainStrings()
    ensures !Assigns("c") && !Assigns("n") && !Assigns("redis_up") && Assigns("password=x")
    ensures ASSIGNMENT + Redaction.REDACTED == "password=[REDACTED]"
    ensures "password=x" != "password=[REDACTED]"
  {
    assert "redis_up"[0] == 'r' && ASSIGNMENT[0] == 'p' && |"c"| == 1 && |"n"| == 1 && |ASSIGNMENT| == 9;
    assert "password=x" == ASSIGNMENT + "x";
    assert |"password=x"| == 10 && |"password=[REDACTED]"| == 19;
  }

  lemma PlainKeys()
    ensures forall key | key in SCOPE :: key !in SENSITIVE_KEYS
  {
    assert |"cluster"| == 7 && |"namespace"| == 9 && |"query_name"| == 10 && |"resource_name"| == 13;
    assert |"authorization"| == 13 && |"cookie"| == 6 && |"set-cookie"| == 10 && |"password"| == 8 && |"passwd"| == 6;
    assert |"pwd"| == 3 && |"token"| == 5 && |"access_token"| == 12 && |"refresh_token"| == 13 && |"api_key"| == 7;
    assert |"apikey"| == 6 && |"secret"| == 6 && |"client_secret"| == 13;
    assert "cluster"[0] == 'c' && "api_key"[0] == 'a' && "query_name"[0] == 'q' && "set-cookie"[0] == 's';
    assert "resource_name"[2] == 's' && "authorization"[2] == 't' && "refresh_token"[2] == 'f' && "client_secret"[2] == 'i';
  }

  lemma RedactedEntry(key: string)
    requires key in SCOPE
    ensures key in STORED && Redaction.Redact(INLINE, SCOPE[key]) == STORED[key]
  {
    PlainStrings();
  }

  lemma StoredRedacted()
    ensures Redaction.Redact(INLINE, JObj(SCOPE)) == JObj(STORED)
  {
    PlainKeys();
    var redacted := Redaction.Redact(INLINE, JObj(SCOPE)).fields;
    forall key | key in SCOPE ensures key in STORED && redacted[key] == STORED[key] {
      RedactedEntry(key);
    }
    assert SCOPE.Keys == STORED.Keys;
    assert redacted == STORED;
  }

  lemma StoredDiffers()
    ensures STORED != SCOPE
  {
    PlainStrings();
    assert SCOPE["resource_name"] == JStr("password=x") && STORED["resource_name"] == JStr("password=[REDACTED]");
  }

  // ---- The configuration ----

  const CALL := Decision(CallTool, Some(METRICS), SCOPE, "Is it up?", [], None, None)

  const MODEL := ModelConfig(100, 50, 10, 0)

  /** An orchestrator with a model, one tool and no size limits. */
  ghost function WithMetrics(runId: Id): Config {
    var text := TextRules((d: Decision) => Conforms(d), (d: Decision) => false);
    var registry := map[METRICS := Tool(true, false, {"c"}, {"n"}, (c: Content) => true)];
    Config(runId, TARGET, registry, WithModel(Some(MODEL)), ROOMY, text, INLINE, (c: Content) => None,
           (c: Content) => Redaction.SanitizeContent(INLINE, (c: Content) => None, c),
           (r: Request) => Build(ROOMY, r),
           (d: Decision, visible: set<Id>) => Validate(text, registry, d, visible),
           (i: PolicyInput) =>
             if i.tool !in registry then Deny("TOOL_NOT_REGISTERED")
             else Evaluate(registry[i.tool], TARGET, i.boundUid, i.used, i.budget, i.tool, i.arguments, i.previous))
  }

  /** Steps, calls and tokens are left. */
  predicate Funded(snap: Snapshot) {
    Calm(snap) && snap.run.modelCallsUsed < snap.run.maxModelCalls && TokensLeft(snap.run) >= 100
  }

  ghost predicate Prepares(cfg: Config, snap: Snapshot, now: int) {
    var pc := Prepare(cfg, snap, now);
    && pc.Ready? && pc.f.snap == snap && pc.f.now == now && pc.f.budget == Some(ModelBudget(50, 10, 0))
    && cfg.rules.estimate(pc.f.context) == 0
  }

  /** What the run below uses of the configuration. */
  ghost predicate Lenient(cfg: Config) {
    && METRICS in cfg.registry && cfg.sanitizeArguments(SCOPE) == STORED
    && (forall snap, now | Funded(snap) && 0 <= now < 100 :: Prepares(cfg, snap, now))
    && (forall context :: ModelDecisionStands(cfg, context, CALL))
    && (forall i: PolicyInput | i.tool == METRICS && i.arguments == SCOPE && i.used < i.budget
                                && CallPrint(METRICS, SCOPE) !in i.previous :: cfg.evaluate(i).Allow?)
  }

  lemma RoomyModelContext(cfg: Config, snap: Snapshot, now: int)
    requires cfg.reasoner == WithModel(Some(MODEL)) && cfg.rules == ROOMY
    requires forall r: Request :: cfg.build(r) == Build(ROOMY, r)
    requires Funded(snap) && now < 300
    ensures Prepares(cfg, snap, now)
  {
    FundedBudget(snap);
    RoomyBuilds(RequestOf(cfg, snap, now, Some(ModelBudget(50, 10, 0))));
  }

  lemma FundedBudget(snap: Snapshot)
    requires Funded(snap)
    ensures Budget(Some(MODEL), snap.run) == Ok(ModelBudget(50, 10, 0))
  {
  }

  lemma RoomyBuilds(request: Request)
    requires request.budget.Some? && request.budget.value.inputLimit >= 0
    ensures Build(ROOMY, request).Ok?
  {
  }

  lemma WithMetricsIsLenient(runId: Id)
    ensures Wired(WithMetrics(runId)) && Lenient(WithMetrics(runId))
  {
    var cfg := WithMetrics(runId);
    assert SanitizerKeepsMarks(ROOMY);
    StoredRedacted();
    forall snap, now | Funded(snap) && 0 <= now < 100 ensures Prepares(cfg, snap, now) {
      RoomyModelContext(cfg, snap, now);
    }
    assert |METRICS| == 16;
    ScopeIsAllowed(cfg);
  }

  lemma ScopeIsAllowed(cfg: Config)
    requires Wired(cfg) && cfg.target == TARGET && METRICS in cfg.registry
    requires var tool := cfg.registry[METRICS];
             tool.readOnly && !tool.requiresApproval && "c" in tool.clusters && "n" in tool.namespaces
    ensures forall i: PolicyInput | i.tool == METRICS && i.arguments == SCOPE && i.used < i.budget
                                    && CallPrint(METRICS, SCOPE) !in i.previous :: cfg.evaluate(i).Allow?
  {
    ScopeNames();
    forall i: PolicyInput | i.tool == METRICS && i.arguments == SCOPE && i.used < i.budget
                            && CallPrint(METRICS, SCOPE) !in i.previous
      ensures cfg.evaluate(i).Allow?
    {
      PolicyExactly(cfg.registry[METRICS], cfg.target, i.boundUid, i.used, i.budget, METRICS, SCOPE, i.previous);
    }
  }

  /** The scope names the target and no uid. */
  lemma ScopeNames()
    ensures forall key | key in NAME_KEYS :: key in SCOPE ==> SCOPE[key] == JStr(TARGET.resourceName)
    ensures "resource_uid" !in SCOPE && "n" !in SYSTEM_NAMESPACES
    ensures Get(SCOPE, "cluster") == Some(JStr("c")) && Get(SCOPE, "namespace") == Some(JStr("n"))
  {
    assert |"cluster"| == 7 && |"namespace"| == 9 && |"pod_name"| == 8 && |"resource_name"| == 13 && |"query_name"| == 10;
    assert |"deployment_name"| == 15 && |"workload_name"| == 13 && |"resource_uid"| == 12;
    assert "workload_name"[0] == 'w' && "resource_name"[0] == 'r';
    assert |"n"| == 1 && |"kube-system"| == 11 && |"kube-public"| == 11 && |"kube-node-lease"| == 15;
  }

  // ---- The run ----

  const USED := Usage(8, 5)

  /** The run being worked on, `n` calls of the model and the tool behind it, each stored redacted. */
  predicate Calling(db: Db, n: nat) {
    && db.run.status.Running? && db.run.currentStep == n && db.run.maxSteps == 6
    && db.run.toolCallsUsed == n && db.run.maxToolCalls == 6
    && db.run.modelCallsUsed == n && db.run.maxModelCalls == 6
    && db.run.inputUsed == 8 * n && db.run.outputUsed == 5 * n && db.run.maxTokens == 1000
    && db.run.deadline == Some(300) && !db.run.cancelRequested && db.run.targetUid == JNull
    && 0 <= db.now < 100 && n + 1 !in db.steps && AllStored(db.steps)
  }

  predicate AllStored(steps: map<nat, StepRow>) {
    forall k | k in steps && steps[k].invocation.Some? :: steps[k].invocation.value.arguments == STORED
  }

  lemma NotPrevious(steps: map<nat, StepRow>)
    requires AllStored(steps)
    ensures CallPrint(METRICS, SCOPE) !in PreviousPrints(steps)
  {
    StoredDiffers();
  }

  lemma ReachReserve(cfg: Config, reach: Sys -> bool, s: Sys, w: WorkerId, s': Sys)
    requires AgentLastStep.Closed(cfg, reach) && reach(s) && StepReserve(cfg, s, w) == Some(s')
    ensures reach(s')
  {
    assert Step(cfg, s, Reserve(w)) == Some(s');
  }

  lemma ReachSettle(cfg: Config, reach: Sys -> bool, s: Sys, w: WorkerId, answer: Answer, s': Sys)
    requires AgentLastStep.Closed(cfg, reach) && reach(s) && StepSettle(cfg, s, w, answer) == Some(s')
    ensures reach(s')
  {
    assert Step(cfg, s, Settle(w, answer)) == Some(s');
  }

  /** The frame of a round whose request is about to go out. */
  ghost predicate Asking(cfg: Config, f: Frame, before: Db) {
    && f.snap == Snapshot(before.run, before.steps, before.evidence)
    && f.budget == Some(ModelBudget(50, 10, 0)) && cfg.rules.estimate(f.context) == 0
  }

  /** A worker at the loop top finds a context for the model. */
  lemma ToFrame(cfg: Config, reach: Sys -> bool, s: Sys, w: WorkerId, n: nat) returns (s': Sys)
    requires Lenient(cfg) && AgentLastStep.Closed(cfg, reach) && reach(s)
    requires PcOf(s, w).LoopTop? && Calling(s.db, n) && n < 6
    ensures reach(s') && PcOf(s', w).Ready? && Asking(cfg, PcOf(s', w).f, s.db) && s'.db == s.db
  {
    var snap := Snapshot(s.db.run, s.db.steps, s.db.evidence);
    assert Prepares(cfg, snap, s.db.now);
    s' := StepObserve(cfg, s, w).value;
    ReachObserve(cfg, reach, s, w, s');
  }

  /** It inserts the step row. */
  lemma ToRow(cfg: Config, reach: Sys -> bool, s: Sys, w: WorkerId, n: nat, before: Db) returns (s': Sys)
    requires AgentLastStep.Closed(cfg, reach) && reach(s) && Calling(before, n) && s.db == before
    requires PcOf(s, w).Ready? && Asking(cfg, PcOf(s, w).f, before)
    ensures reach(s') && w in s'.workers && s'.workers[w].pc.Deciding? && Asking(cfg, s'.workers[w].pc.f, before)
    ensures n + 1 in s'.db.steps && s'.db.steps[n + 1].invocation.None?
    ensures s'.db == before.(steps := before.steps[n + 1 := s'.db.steps[n + 1]])
  {
    s' := StepInsert(cfg, s, w).value;
    ReachInsert(cfg, reach, s, w, s');
  }

  /** The run row after a request with known usage. */
  function Paid(run: RunRow): RunRow {
    run.(modelCallsUsed := run.modelCallsUsed + 1, inputUsed := run.inputUsed + 8, outputUsed := run.outputUsed + 5)
  }

  /** The model is asked and decides to make the call. */
  lemma ToDecision(cfg: Config, reach: Sys -> bool, s: Sys, w: WorkerId, n: nat, before: Db) returns (s': Sys)
    requires Lenient(cfg) && AgentLastStep.Closed(cfg, reach) && reach(s) && Calling(before, n) && n < 6
    requires PcOf(s, w).Deciding? && Asking(cfg, PcOf(s, w).f, before) && s.db.run == before.run
    ensures reach(s') && w in s'.workers && s'.workers[w].pc.Decided? && s'.workers[w].pc.d == CALL
    ensures s'.workers[w].pc.f == PcOf(s, w).f && s'.db == s.db.(run := Paid(before.run))
  {
    var f, answer := PcOf(s, w).f, Answered(CALL, Some(USED));
    var asked := StepReserve(cfg, s, w).value;
    ReachReserve(cfg, reach, s, w, asked);
    assert ModelDecisionStands(cfg, f.context, CALL);
    s' := StepSettle(cfg, asked, w, answer).value;
    ReachSettle(cfg, reach, asked, w, answer, s');
  }

  /** The decision is recorded and cleared: the run is neither cancelled nor expired. */
  lemma ToCleared(cfg: Config, reach: Sys -> bool, s: Sys, w: WorkerId, n: nat) returns (s': Sys)
    requires AgentLastStep.Closed(cfg, reach) && reach(s) && PcOf(s, w).Decided? && Sequence(PcOf(s, w).f) == n + 1
    requires n + 1 in s.db.steps && s.db.run.status.Running? && !s.db.run.cancelRequested
    requires s.db.run.deadline == Some(300) && s.db.now < 100
    ensures reach(s') && PcOf(s', w).Cleared? && PcOf(s', w).f == PcOf(s, w).f && PcOf(s', w).d == PcOf(s, w).d
    ensures n + 1 in s'.db.steps && s'.db.steps[n + 1].invocation == s.db.steps[n + 1].invocation
    ensures s'.db == s.db.(steps := s.db.steps[n + 1 := s'.db.steps[n + 1]])
  {
    var recorded := StepRecord(cfg, s, w).value;
    s' := StepCheck(cfg, recorded, w).value;
    ReachRecord(cfg, reach, s, w, recorded);
    ReachCheck(cfg, reach, recorded, w, s');
  }

  /** From the decision to the running tool. */
  lemma ToTool(cfg: Config, reach: Sys -> bool, s: Sys, w: WorkerId, n: nat, before: Db) returns (s': Sys)
    requires Lenient(cfg) && AgentLastStep.Closed(cfg, reach) && reach(s) && Calling(before, n) && n < 6
    requires w in s.workers && s.workers[w].pc.Decided? && s.workers[w].pc.d == CALL
    requires s.workers[w].pc.f.snap == Snapshot(before.run, before.steps, before.evidence)
    requires n + 1 in s.db.steps && s.db.steps[n + 1].invocation.None?
    requires s.db == before.(run := Paid(before.run), steps := before.steps[n + 1 := s.db.steps[n + 1]])
    ensures reach(s') && w in s'.workers && s'.workers[w].pc.ToolRunning? && Sequence(s'.workers[w].pc.f) == n + 1
    ensures Called(before, n, s'.db)
  {
    var cleared := ToCleared(cfg, reach, s, w, n);
    NotPrevious(before.steps);
    s' := Dispatching(cfg, reach, cleared, w);
  }

  /** The rows once the call of step `n + 1` has started. */
  predicate Called(before: Db, n: nat, db: Db) {
    && n + 1 in db.steps && db.steps == before.steps[n + 1 := db.steps[n + 1]]
    && db.steps[n + 1].invocation == Some(Invocation(METRICS, SCOPE, STORED, InvocationStatus.Running, None, ""))
    && db.run == Paid(before.run).(toolCallsUsed := before.run.toolCallsUsed + 1, leaseExpires := db.run.leaseExpires)
    && db.evidence == before.evidence && db.now == before.now
  }

  lemma Dispatching(cfg: Config, reach: Sys -> bool, s: Sys, w: WorkerId) returns (s': Sys)
    requires Lenient(cfg) && AgentLastStep.Closed(cfg, reach) && reach(s) && PcOf(s, w).Cleared? && PcOf(s, w).d == CALL
    requires var f := PcOf(s, w).f;
             && Sequence(f) in s.db.steps && s.db.steps[Sequence(f)].invocation.None?
             && f.snap.run.toolCallsUsed < f.snap.run.maxToolCalls
             && CallPrint(METRICS, SCOPE) !in PreviousPrints(f.snap.steps)
    ensures reach(s') && w in s'.workers && s'.workers[w].pc == ToolRunning(PcOf(s, w).f, CALL)
    ensures StartTool(s.db, Sequence(PcOf(s, w).f), METRICS, SCOPE, STORED) == Ok(s'.db)
  {
    assert |METRICS| == 16;
    s' := StepDispatch(cfg, s, w).value;
    ReachDispatch(cfg, reach, s, w, s');
  }

  /** The tool returns `content`, and the worker is at the loop top again. */
  lemma ToLoopTop(
    cfg: Config, reach: Sys -> bool, s: Sys, w: WorkerId, n: nat, id: Id, content: Content) returns (s': Sys)
    requires AgentLastStep.Closed(cfg, reach) && reach(s) && PcOf(s, w).ToolRunning? && Sequence(PcOf(s, w).f) == n + 1
    requires n + 1 in s.db.steps && s.db.steps[n + 1].invocation.Some?
    requires s.db.steps[n + 1].invocation.value.tool == METRICS
    requires FreshId(s.db, id) && forall e | e in s.db.evidence :: e.kind.AlertPayload? || e.content != content
    ensures reach(s') && PcOf(s', w).LoopTop? && s'.db.run == s.db.run.(currentStep := n + 1)
    ensures n + 1 in s'.db.steps && s'.db.steps == s.db.steps[n + 1 := s'.db.steps[n + 1]] && s'.db.now == s.db.now
    ensures s'.db.steps[n + 1].invocation.Some?
    ensures var i, i' := s.db.steps[n + 1].invocation.value, s'.db.steps[n + 1].invocation.value;
            i'.tool == i.tool && i'.sent == i.sent && i'.arguments == i.arguments
  {
    var outcome := Outcome.Result(PrometheusMetrics, "prometheus", content);
    assert |METRICS| == 16 && |POD_STATUS_TOOL| == 14;
    s' := StepCommit(cfg, s, w, outcome, id).value;
    assert Step(cfg, s, Commit(w, outcome, id)) == Some(s');
  }

  /** One round up to the running tool. */
  lemma MakeCall(cfg: Config, reach: Sys -> bool, s: Sys, w: WorkerId, n: nat) returns (s': Sys)
    requires Lenient(cfg) && AgentLastStep.Closed(cfg, reach) && reach(s)
    requires PcOf(s, w).LoopTop? && Calling(s.db, n) && n < 6
    ensures reach(s') && PcOf(s', w).ToolRunning? && Sequence(PcOf(s', w).f) == n + 1
    ensures Called(s.db, n, s'.db)
  {
    var observed := ToFrame(cfg, reach, s, w, n);
    var row := ToRow(cfg, reach, observed, w, n, s.db);
    var decided := ToDecision(cfg, reach, row, w, n, s.db);
    s' := ToTool(cfg, reach, decided, w, n, s.db);
  }

  /** A run with a budget for the model. */
  function Fresh(): Sys {
    var queued := AgentLastStep.Queued();
    queued.(db := queued.db.(run := queued.db.run.(maxModelCalls := 6, maxTokens := 1000)))
  }

  /** The run, and its first worker, after the claim. */
  lemma Start(cfg: Config, reach: Sys -> bool) returns (s: Sys)
    requires AgentLastStep.Closed(cfg, reach) && reach(Fresh())
    ensures reach(s) && PcOf(s, 1).LoopTop? && Calling(s.db, 0) && s.db.steps == map[]
    ensures |s.db.evidence| == 1 && s.db.evidence[0].id == "a" && s.db.evidence[0].kind.AlertPayload?
  {
    s := StepClaim(cfg, Fresh(), 1, "a", map[]).value;
    ReachClaim(cfg, reach, Fresh(), 1, "a", map[], s);
  }

  lemma TwoCalls(cfg: Config, reach: Sys -> bool) returns (s: Sys)
    requires Lenient(cfg) && AgentLastStep.Closed(cfg, reach) && reach(Fresh())
    ensures reach(s) && 1 in s.db.steps && 2 in s.db.steps && Repeats(s.db.steps[1], s.db.steps[2])
    ensures s.db.run.status.Running?
  {
    var start := Start(cfg, reach);
    var first := MakeCall(cfg, reach, start, 1, 0);
    assert "a" != "b";
    var between := ToLoopTop(cfg, reach, first, 1, 0, "b", map["value" := JNum(1)]);
    s := MakeCall(cfg, reach, between, 1, 1);
  }

  /** A reachable run in which the model makes one worker call the same tool with the same arguments twice. */
  lemma SameCallTwice(runId: Id) returns (s: Sys)
    ensures var cfg := WithMetrics(runId); Wired(cfg) && Reachable(cfg, s) && s.db.run.status.Running?
    ensures 1 in s.db.steps && 2 in s.db.steps && Repeats(s.db.steps[1], s.db.steps[2])
  {
    var cfg := WithMetrics(runId);
    WithMetricsIsLenient(runId);
    assert Run(cfg, Fresh(), []) == Some(Fresh());
    var reach := (x: Sys) => Reachable(cfg, x);
    forall x, a | reach(x) && Step(cfg, x, a).Some? ensures reach(Step(cfg, x, a).value) {
      ReachableStep(cfg, x, a);
    }
    s := TwoCalls(cfg, reach);
  }
}
