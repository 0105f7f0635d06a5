/**
 * What a run keeps of the outcomes its tools gave, along every run: each settled call has exactly one
 * evidence row, with what its tool returned, and there is no other evidence but the alert's.
 */
module ToolOutcomes {
  import opened Common
  import opened Domain
  import opened ContextMemory
  import D = AgentDatabase
  import opened AgentDatabase
  import opened AgentRun
  import opened AgentStructure
  import opened AgentEffects

  /** History: the outcomes committed so far, by step. */
  type History = map<nat, Outcome>

  ghost function After(cfg: Config, s: Sys, h: History, a: Action): History {
    match a
    case Commit(w, outcome, id) =>
      var next := StepCommit(cfg, s, w, outcome, id);
      if next.Some? && PcOf(s, w).ToolRunning? && !PcOf(next.value, w).Crashed?
      then h[Sequence(PcOf(s, w).f) := outcome] else h
    case _ => h
  }

  ghost function Outcomes(cfg: Config, s: Sys, h: History, trace: seq<Action>): History
    requires Run(cfg, s, trace).Some?
    decreases |trace|
  {
    if trace == [] then h
    else Outcomes(cfg, Step(cfg, s, trace[0]).value, After(cfg, s, h, trace[0]), trace[1..])
  }

  // ---- The invariant ----

  /** The one row of an outcome. */
  ghost predicate StoredAs(cfg: Config, db: Db, e: Evidence, id: Id, tool: string, outcome: Outcome) {
    e.collectedAt.Some? && e.collectedAt.value <= db.now && Stores(e, id, cfg.runId, tool, outcome, e.collectedAt.value)
  }

  /** The call of step `n` is over, and its evidence is what the tool gave. */
  ghost predicate Kept(cfg: Config, db: Db, n: nat, outcome: Outcome) {
    && n in db.steps && 1 <= n <= db.run.currentStep
    && db.steps[n].invocation.Some? && db.steps[n].invocation.value.evidence.Some?
    && Settles(db.steps[n], outcome, db.steps[n].invocation.value.evidence.value)
    && exists e | e in db.evidence ::
         StoredAs(cfg, db, e, db.steps[n].invocation.value.evidence.value, db.steps[n].invocation.value.tool, outcome)
  }

  ghost predicate Unsettled(row: StepRow) {
    row.invocation.Some? ==> row.invocation.value.status == InvocationStatus.Running && row.invocation.value.evidence == None
  }

  ghost predicate UniqueIds(evidence: seq<Evidence>) {
    forall i, j | 0 <= i < j < |evidence| :: evidence[i].id != evidence[j].id
  }

  /** A row that no call produced is the alert's. */
  ghost predicate Explained(db: Db, e: Evidence, h: History) {
    || (e.kind == AlertPayload && e.source == "alert")
    || exists n | n in h :: n in db.steps && Produced(db.steps[n]) == Some(e.id)
  }

  ghost predicate AllKept(cfg: Config, db: Db, h: History) { forall n | n in h :: Kept(cfg, db, n, h[n]) }

  ghost predicate OthersOpen(db: Db, h: History) { forall n | n in db.steps && n !in h :: Unsettled(db.steps[n]) }

  ghost predicate AllExplained(db: Db, h: History) { forall e | e in db.evidence :: Explained(db, e, h) }

  /** No two calls share an evidence row. */
  ghost predicate Unshared(db: Db, h: History) {
    forall m, n | m in h && n in h && m < n :: m in db.steps && n in db.steps
                                               && Produced(db.steps[m]) != Produced(db.steps[n])
  }

  ghost predicate Archive(cfg: Config, db: Db, h: History) {
    AllKept(cfg, db, h) && OthersOpen(db, h) && UniqueIds(db.evidence) && AllExplained(db, h) && Unshared(db, h)
  }

  /** The run's uid is the one it was created with, or one its own pod status showed. */
  ghost predicate UidShown(first: Json, db: Db, h: History) {
    db.run.targetUid == first || exists n | n in h :: ShowsUid(db, n, h[n], db.run.targetUid)
  }

  ghost predicate ShowsUid(db: Db, n: nat, outcome: Outcome, uid: Json) {
    && n in db.steps && db.steps[n].invocation.Some? && db.steps[n].invocation.value.tool == "get_pod_status"
    && outcome.Result? && Get(outcome.content, "uid") == Some(uid) && Truthy(uid)
  }

  // ---- Steps that commit nothing ----

  /** Settled rows stay, open calls stay open, and evidence at most grows by the alert. */
  ghost predicate Preserves(db: Db, db': Db) {
    && db.now <= db'.now && db.run.currentStep <= db'.run.currentStep && db'.run.targetUid == db.run.targetUid
    && (forall n | n in db.steps && n <= db.run.currentStep :: n in db'.steps && db'.steps[n] == db.steps[n])
    && (forall n | n in db'.steps && (n !in db.steps || db.run.currentStep < n) ::
          Unsettled(db'.steps[n]) || (n in db.steps && db'.steps[n].invocation == db.steps[n].invocation))
    && (db'.evidence == db.evidence || exists e :: db'.evidence == db.evidence + [e] && NewAlert(db, e))
  }

  ghost predicate NewAlert(db: Db, e: Evidence) { e.kind == AlertPayload && e.source == "alert" && FreshId(db, e.id) }

  lemma KeptStays(cfg: Config, db: Db, db': Db, n: nat, outcome: Outcome)
    requires Kept(cfg, db, n, outcome) && Preserves(db, db')
    ensures Kept(cfg, db', n, outcome) && db'.steps[n] == db.steps[n]
  {
    var e :| e in db.evidence
          && StoredAs(cfg, db, e, db.steps[n].invocation.value.evidence.value, db.steps[n].invocation.value.tool, outcome);
    assert e in db'.evidence;
  }

  lemma ExplainedStays(cfg: Config, db: Db, db': Db, h: History, e: Evidence)
    requires Archive(cfg, db, h) && Preserves(db, db') && Explained(db, e, h)
    ensures Explained(db', e, h)
  {
    if n :| n in h && n in db.steps && Produced(db.steps[n]) == Some(e.id) {
      KeptStays(cfg, db, db', n, h[n]);
    }
  }

  lemma UniqueStays(db: Db, db': Db)
    requires UniqueIds(db.evidence) && Preserves(db, db')
    ensures UniqueIds(db'.evidence)
  {
    if db'.evidence != db.evidence {
      var e :| db'.evidence == db.evidence + [e] && NewAlert(db, e);
      assert forall i | 0 <= i < |db.evidence| :: db.evidence[i] in db.evidence;
    }
  }

  lemma ArchiveStays(cfg: Config, db: Db, db': Db, h: History)
    requires Archive(cfg, db, h) && Preserves(db, db')
    ensures Archive(cfg, db', h)
  {
    forall n | n in h ensures Kept(cfg, db', n, h[n]) && db'.steps[n] == db.steps[n] {
      KeptStays(cfg, db, db', n, h[n]);
    }
    forall n | n in db'.steps && n !in h ensures Unsettled(db'.steps[n]) {
      if n in db.steps {
        assert Unsettled(db.steps[n]);
      }
    }
    UniqueStays(db, db');
    forall e | e in db'.evidence ensures Explained(db', e, h) {
      if e in db.evidence {
        ExplainedStays(cfg, db, db', h, e);
      }
    }
  }

  // ---- Every step ----

  lemma PlainEvidence(cfg: Config, s: Sys, a: Action)
    requires PlainAction(a) && Step(cfg, s, a).Some?
    ensures var db' := Step(cfg, s, a).value.db;
            s.db.now <= db'.now
            && (db'.evidence == s.db.evidence || exists e :: db'.evidence == s.db.evidence + [e] && NewAlert(s.db, e))
  {
    match a
    case Claim(w, id, content) =>
      var alert := Evidence(id, cfg.runId, AlertPayload, "alert", content, Some(s.db.now), None);
      assert NewAlert(s.db, alert);
    case _ =>
  }

  lemma PlainPreserves(cfg: Config, s: Sys, a: Action)
    requires Structure(cfg, s) && PlainAction(a) && Step(cfg, s, a).Some?
    ensures Preserves(s.db, Step(cfg, s, a).value.db)
  {
    PlainStep(cfg, s, a);
    PlainEvidence(cfg, s, a);
  }

  lemma InsertPreserves(cfg: Config, s: Sys, w: WorkerId)
    requires Structure(cfg, s) && StepInsert(cfg, s, w).Some?
    ensures Preserves(s.db, StepInsert(cfg, s, w).value.db)
  {
    InsertShape(cfg, s, w);
  }

  lemma AccountPreserves(cfg: Config, s: Sys, s': Sys, w: WorkerId)
    requires StepReserve(cfg, s, w) == Some(s') || exists answer :: StepSettle(cfg, s, w, answer) == Some(s')
    ensures Preserves(s.db, s'.db)
  {
    AccountShape(cfg, s, s', w);
  }

  lemma DispatchPreserves(cfg: Config, s: Sys, w: WorkerId)
    requires Structure(cfg, s) && StepDispatch(cfg, s, w).Some?
    ensures Preserves(s.db, StepDispatch(cfg, s, w).value.db)
  {
    DispatchShape(cfg, s, w);
    assert WorkerOk(cfg, s.db, s.calls, w, s.workers[w]);
    var f, d, s' := s.workers[w].pc.f, s.workers[w].pc.d, StepDispatch(cfg, s, w).value;
    if DispatchStarts(cfg, s.db, f, d, s'.db, s'.workers[w].pc) {
      StartEffect(s.db, Sequence(f), d.tool.value, d.arguments, cfg.sanitizeArguments(d.arguments));
    }
  }

  /** A commit that went through settles the worker's call with the outcome. */
  lemma CommitIsCommitted(cfg: Config, s: Sys, w: WorkerId, outcome: Outcome, id: Id)
    requires StepCommit(cfg, s, w, outcome, id).Some?
    ensures var s', pc := StepCommit(cfg, s, w, outcome, id).value, PcOf(s, w);
            && pc.ToolRunning? && Sequence(pc.f) in s.db.steps && s.db.steps[Sequence(pc.f)].invocation.Some?
            && FreshId(s.db, id)
            && (if PcOf(s', w).Crashed? then s'.db == s.db
                else Committed(s.db, s'.db, Sequence(pc.f), outcome, id, cfg.runId))
  {
    CommitShape(cfg, s, w, outcome, id);
    CommitEffect(s.db, Sequence(PcOf(s, w).f), outcome, id, cfg.runId);
  }

  /** Everything but the committed row stays. */
  lemma KeptBeside(cfg: Config, db: Db, db': Db, n: nat, outcome: Outcome, id: Id, k: nat, other: Outcome)
    requires n in db.steps && db.steps[n].invocation.Some? && Committed(db, db', n, outcome, id, cfg.runId)
    requires db.run.currentStep < n && Kept(cfg, db, k, other)
    ensures Kept(cfg, db', k, other) && db'.steps[k] == db.steps[k]
  {
    var e :| e in db.evidence
          && StoredAs(cfg, db, e, db.steps[k].invocation.value.evidence.value, db.steps[k].invocation.value.tool, other);
    var i :| 0 <= i < |db.evidence| && db.evidence[i] == e;
    assert db'.evidence[i] == db'.evidence[..|db.evidence|][i] == e;
    assert e in db'.evidence && StoredAs(cfg, db', e, db.steps[k].invocation.value.evidence.value,
                                         db.steps[k].invocation.value.tool, other);
  }

  lemma CommittedIsKept(cfg: Config, db: Db, db': Db, n: nat, outcome: Outcome, id: Id)
    requires n in db.steps && n >= 1 && db.steps[n].invocation.Some?
    requires Committed(db, db', n, outcome, id, cfg.runId)
    ensures Kept(cfg, db', n, outcome) && Produced(db'.steps[n]) == Some(id)
  {
    var e := db'.evidence[|db.evidence|];
    assert e in db'.evidence && StoredAs(cfg, db', e, id, db.steps[n].invocation.value.tool, outcome);
  }

  lemma CommittedIds(db: Db, db': Db, n: nat, outcome: Outcome, id: Id, runId: Id)
    requires n in db.steps && db.steps[n].invocation.Some? && Committed(db, db', n, outcome, id, runId)
    requires UniqueIds(db.evidence) && FreshId(db, id)
    ensures UniqueIds(db'.evidence)
  {
    var last := |db.evidence|;
    forall i, j | 0 <= i < j < |db'.evidence| ensures db'.evidence[i].id != db'.evidence[j].id {
      assert db'.evidence[i] == db'.evidence[..last][i];
      assert db'.evidence[i] in db.evidence;
      if j < last {
        assert db'.evidence[j] == db'.evidence[..last][j];
      }
    }
  }

  lemma ArchiveCommits(cfg: Config, db: Db, db': Db, h: History, n: nat, outcome: Outcome, id: Id)
    requires Archive(cfg, db, h) && n in db.steps && n == db.run.currentStep + 1 && db.steps[n].invocation.Some?
    requires FreshId(db, id) && Committed(db, db', n, outcome, id, cfg.runId)
    ensures Archive(cfg, db', h[n := outcome])
  {
    CommittedIds(db, db', n, outcome, id, cfg.runId);
    CommitAllKept(cfg, db, db', h, n, outcome, id);
    CommitOthersOpen(cfg, db, db', h, n, outcome, id);
    CommitAllExplained(cfg, db, db', h, n, outcome, id);
    CommitUnshared(cfg, db, db', h, n, outcome, id);
  }

  lemma CommitAllKept(cfg: Config, db: Db, db': Db, h: History, n: nat, outcome: Outcome, id: Id)
    requires AllKept(cfg, db, h) && n in db.steps && n == db.run.currentStep + 1 && db.steps[n].invocation.Some?
    requires FreshId(db, id) && Committed(db, db', n, outcome, id, cfg.runId)
    ensures AllKept(cfg, db', h[n := outcome])
  {
    var h' := h[n := outcome];
    forall k | k in h' ensures Kept(cfg, db', k, h'[k]) {
      CommitKept(cfg, db, db', h, n, outcome, id, k);
    }
  }

  lemma CommitOthersOpen(cfg: Config, db: Db, db': Db, h: History, n: nat, outcome: Outcome, id: Id)
    requires OthersOpen(db, h) && n in db.steps && db.steps[n].invocation.Some?
    requires Committed(db, db', n, outcome, id, cfg.runId)
    ensures OthersOpen(db', h[n := outcome])
  {
    var h' := h[n := outcome];
    forall k | k in db'.steps && k !in h' ensures Unsettled(db'.steps[k]) {
      assert k in db.steps && Unsettled(db.steps[k]);
    }
  }

  lemma CommitAllExplained(cfg: Config, db: Db, db': Db, h: History, n: nat, outcome: Outcome, id: Id)
    requires AllKept(cfg, db, h) && AllExplained(db, h)
    requires n in db.steps && n == db.run.currentStep + 1 && db.steps[n].invocation.Some?
    requires Committed(db, db', n, outcome, id, cfg.runId)
    ensures AllExplained(db', h[n := outcome])
  {
    forall e | e in db'.evidence ensures Explained(db', e, h[n := outcome]) {
      CommitExplained(cfg, db, db', h, n, outcome, id, e);
    }
  }

  lemma CommitUnshared(cfg: Config, db: Db, db': Db, h: History, n: nat, outcome: Outcome, id: Id)
    requires AllKept(cfg, db, h) && Unshared(db, h)
    requires n in db.steps && n == db.run.currentStep + 1 && db.steps[n].invocation.Some?
    requires FreshId(db, id) && Committed(db, db', n, outcome, id, cfg.runId)
    ensures Unshared(db', h[n := outcome])
  {
    var h' := h[n := outcome];
    forall k, m | k in h' && m in h' && k < m
      ensures k in db'.steps && m in db'.steps && Produced(db'.steps[k]) != Produced(db'.steps[m])
    {
      CommitKept(cfg, db, db', h, n, outcome, id, k);
      CommitKept(cfg, db, db', h, n, outcome, id, m);
    }
  }

  /** A settled call after the commit: the new one with its id, or an old one, with another id. */
  lemma CommitKept(cfg: Config, db: Db, db': Db, h: History, n: nat, outcome: Outcome, id: Id, k: nat)
    requires AllKept(cfg, db, h) && n in db.steps && n == db.run.currentStep + 1 && db.steps[n].invocation.Some?
    requires FreshId(db, id) && Committed(db, db', n, outcome, id, cfg.runId) && k in h[n := outcome]
    ensures Kept(cfg, db', k, h[n := outcome][k])
    ensures if k == n then Produced(db'.steps[k]) == Some(id)
            else k in db.steps && k in h && db'.steps[k] == db.steps[k] && Produced(db.steps[k]) != Some(id)
  {
    if k == n {
      CommittedIsKept(cfg, db, db', n, outcome, id);
    } else {
      assert Kept(cfg, db, k, h[k]);
      KeptBeside(cfg, db, db', n, outcome, id, k, h[k]);
    }
  }

  lemma CommitExplained(cfg: Config, db: Db, db': Db, h: History, n: nat, outcome: Outcome, id: Id, e: Evidence)
    requires AllKept(cfg, db, h) && AllExplained(db, h)
    requires n in db.steps && n == db.run.currentStep + 1 && db.steps[n].invocation.Some?
    requires Committed(db, db', n, outcome, id, cfg.runId) && e in db'.evidence
    ensures Explained(db', e, h[n := outcome])
  {
    var h', last := h[n := outcome], |db.evidence|;
    var i :| 0 <= i < |db'.evidence| && db'.evidence[i] == e;
    if i == last {
      assert n in h' && Produced(db'.steps[n]) == Some(e.id);
    } else {
      assert e == db'.evidence[..last][i] && e in db.evidence;
      if k :| k in h && k in db.steps && Produced(db.steps[k]) == Some(e.id) {
        assert Kept(cfg, db, k, h[k]);
        assert k in h' && db'.steps[k] == db.steps[k];
      }
    }
  }

  lemma StepPreserves(cfg: Config, s: Sys, a: Action)
    requires Structure(cfg, s) && Step(cfg, s, a).Some? && !a.Commit?
    ensures Preserves(s.db, Step(cfg, s, a).value.db)
  {
    if PlainAction(a) {
      PlainPreserves(cfg, s, a);
    } else {
      match a
      case Insert(w) => InsertPreserves(cfg, s, w);
      case Reserve(w) => AccountPreserves(cfg, s, Step(cfg, s, a).value, w);
      case Settle(w, answer) => AccountPreserves(cfg, s, Step(cfg, s, a).value, w);
      case Dispatch(w) => DispatchPreserves(cfg, s, w);
    }
  }

  lemma StepKeepsArchive(cfg: Config, s: Sys, h: History, a: Action)
    requires Structure(cfg, s) && Archive(cfg, s.db, h) && Step(cfg, s, a).Some?
    ensures Archive(cfg, Step(cfg, s, a).value.db, After(cfg, s, h, a))
  {
    if a.Commit? {
      CommitKeepsArchive(cfg, s, h, a.w, a.outcome, a.id);
    } else {
      StepPreserves(cfg, s, a);
      ArchiveStays(cfg, s.db, Step(cfg, s, a).value.db, h);
    }
  }

  lemma CommitKeepsArchive(cfg: Config, s: Sys, h: History, w: WorkerId, outcome: Outcome, id: Id)
    requires Structure(cfg, s) && Archive(cfg, s.db, h) && StepCommit(cfg, s, w, outcome, id).Some?
    ensures Archive(cfg, StepCommit(cfg, s, w, outcome, id).value.db, After(cfg, s, h, Commit(w, outcome, id)))
  {
    var crashed, next, h', n := CommitFacts(cfg, s, h, w, outcome, id);
    ArchiveAfter(cfg, s.db, next, h, h', n, outcome, id, crashed);
  }

  /** A commit and its record: both happen, or neither. */
  lemma CommitFacts(cfg: Config, s: Sys, h: History, w: WorkerId, outcome: Outcome, id: Id)
    returns (crashed: bool, next: Db, h': History, n: nat)
    requires Structure(cfg, s) && StepCommit(cfg, s, w, outcome, id).Some?
    ensures next == StepCommit(cfg, s, w, outcome, id).value.db && h' == After(cfg, s, h, Commit(w, outcome, id))
    ensures n in s.db.steps && n == s.db.run.currentStep + 1 && s.db.steps[n].invocation.Some? && FreshId(s.db, id)
    ensures if crashed then next == s.db && h' == h
            else Committed(s.db, next, n, outcome, id, cfg.runId) && h' == h[n := outcome]
  {
    CommitIsCommitted(cfg, s, w, outcome, id);
    CommittedNext(cfg, s, w);
    next, h' := StepCommit(cfg, s, w, outcome, id).value.db, After(cfg, s, h, Commit(w, outcome, id));
    crashed, n := PcOf(StepCommit(cfg, s, w, outcome, id).value, w).Crashed?, Sequence(PcOf(s, w).f);
  }

  lemma ArchiveAfter(
    cfg: Config, db: Db, db': Db, h: History, h': History, n: nat, outcome: Outcome, id: Id, crashed: bool)
    requires Archive(cfg, db, h) && n in db.steps && n == db.run.currentStep + 1 && db.steps[n].invocation.Some?
    requires FreshId(db, id)
    requires if crashed then db' == db && h' == h
             else Committed(db, db', n, outcome, id, cfg.runId) && h' == h[n := outcome]
    ensures Archive(cfg, db', h')
  {
    if !crashed {
      ArchiveCommits(cfg, db, db', h, n, outcome, id);
    }
  }

  lemma CommittedNext(cfg: Config, s: Sys, w: WorkerId)
    requires Structure(cfg, s) && PcOf(s, w).ToolRunning?
    ensures Sequence(PcOf(s, w).f) == s.db.run.currentStep + 1
  {
    assert WorkerOk(cfg, s.db, s.calls, w, s.workers[w]);
  }

  lemma StepKeepsUid(cfg: Config, first: Json, s: Sys, h: History, a: Action)
    requires Structure(cfg, s) && Archive(cfg, s.db, h) && UidShown(first, s.db, h) && Step(cfg, s, a).Some?
    ensures UidShown(first, Step(cfg, s, a).value.db, After(cfg, s, h, a))
  {
    if a.Commit? {
      var crashed, next, h', n := CommitFacts(cfg, s, h, a.w, a.outcome, a.id);
      if !crashed {
        UidAfter(cfg, first, s.db, next, h, n, a.outcome, a.id);
      }
    } else {
      StepPreserves(cfg, s, a);
      UidStays(cfg, first, s.db, Step(cfg, s, a).value.db, h);
    }
  }

  lemma UidStays(cfg: Config, first: Json, db: Db, db': Db, h: History)
    requires Archive(cfg, db, h) && UidShown(first, db, h) && Preserves(db, db')
    ensures UidShown(first, db', h)
  {
    if n :| n in h && ShowsUid(db, n, h[n], db.run.targetUid) {
      KeptStays(cfg, db, db', n, h[n]);
      assert ShowsUid(db', n, h[n], db'.run.targetUid);
    }
  }

  lemma UidRowStays(
    db: Db, db': Db, n: nat, outcome: Outcome, id: Id, runId: Id, k: nat, shown: Outcome)
    requires n in db.steps && db.steps[n].invocation.Some? && Committed(db, db', n, outcome, id, runId)
    requires k != n && ShowsUid(db, k, shown, db.run.targetUid)
    ensures ShowsUid(db', k, shown, db.run.targetUid)
  {
  }

  lemma UidAfter(cfg: Config, first: Json, db: Db, db': Db, h: History, n: nat, outcome: Outcome, id: Id)
    requires AllKept(cfg, db, h) && UidShown(first, db, h)
    requires n in db.steps && n == db.run.currentStep + 1 && db.steps[n].invocation.Some?
    requires Committed(db, db', n, outcome, id, cfg.runId)
    ensures UidShown(first, db', h[n := outcome])
  {
    var h' := h[n := outcome];
    if db'.run.targetUid != db.run.targetUid {
      assert n in h' && ShowsUid(db', n, outcome, db'.run.targetUid);
    } else if k :| k in h && ShowsUid(db, k, h[k], db.run.targetUid) {
      assert Kept(cfg, db, k, h[k]);
      UidRowStays(db, db', n, outcome, id, cfg.runId, k, h[k]);
      assert k in h' && h'[k] == h[k];
    }
  }

  // ---- Every run ----

  lemma {:induction false} RunKeepsArchive(cfg: Config, first: Json, s: Sys, h: History, trace: seq<Action>)
    requires Structure(cfg, s) && Archive(cfg, s.db, h) && UidShown(first, s.db, h) && Run(cfg, s, trace).Some?
    ensures Archive(cfg, Run(cfg, s, trace).value.db, Outcomes(cfg, s, h, trace))
    ensures UidShown(first, Run(cfg, s, trace).value.db, Outcomes(cfg, s, h, trace))
    decreases |trace|
  {
    if trace != [] {
      StepKeepsStructure(cfg, s, trace[0]);
      StepKeepsArchive(cfg, s, h, trace[0]);
      StepKeepsUid(cfg, first, s, h, trace[0]);
      RunKeepsArchive(cfg, first, Step(cfg, s, trace[0]).value, After(cfg, s, h, trace[0]), trace[1..]);
    }
  }

  lemma RunArchive(cfg: Config, init: Sys, trace: seq<Action>)
    requires Init(cfg, init) && Run(cfg, init, trace).Some?
    ensures Archive(cfg, Run(cfg, init, trace).value.db, Outcomes(cfg, init, map[], trace))
    ensures UidShown(init.db.run.targetUid, Run(cfg, init, trace).value.db, Outcomes(cfg, init, map[], trace))
  {
    RunKeepsArchive(cfg, init.db.run.targetUid, init, map[], trace);
  }

  /** The uid a run is bound to was there from the start, or a pod status the run read showed it. */
  lemma BoundUidWasShown(cfg: Config, init: Sys, trace: seq<Action>)
    requires Init(cfg, init) && Run(cfg, init, trace).Some?
    ensures var db, h := Run(cfg, init, trace).value.db, Outcomes(cfg, init, map[], trace);
            || db.run.targetUid == init.db.run.targetUid
            || exists n | n in h ::
                 && n in db.steps && db.steps[n].invocation.Some?
                 && db.steps[n].invocation.value.tool == "get_pod_status"
                 && h[n].Result? && Get(h[n].content, "uid") == Some(db.run.targetUid)
  {
    RunArchive(cfg, init, trace);
  }

  /** The history records exactly the calls that are over. */
  lemma HistoryIsSettledCalls(cfg: Config, init: Sys, trace: seq<Action>, n: nat)
    requires Init(cfg, init) && Run(cfg, init, trace).Some?
    ensures var db := Run(cfg, init, trace).value.db;
            n in Outcomes(cfg, init, map[], trace) <==>
              && n in db.steps && db.steps[n].invocation.Some?
              && db.steps[n].invocation.value.status != InvocationStatus.Running
  {
    RunArchive(cfg, init, trace);
  }

  /**
   * A call that is over names one evidence row of this run, and that row holds what the tool gave: the
   * type, source and content of its result, or a collection error with the tool and the code.
   */
  lemma OutcomesAreKept(cfg: Config, init: Sys, trace: seq<Action>, n: nat)
    requires Init(cfg, init) && Run(cfg, init, trace).Some? && n in Outcomes(cfg, init, map[], trace)
    ensures var db, outcome := Run(cfg, init, trace).value.db, Outcomes(cfg, init, map[], trace)[n];
            && n in db.steps && db.steps[n].invocation.Some? && db.steps[n].invocation.value.evidence.Some?
            && Settles(db.steps[n], outcome, db.steps[n].invocation.value.evidence.value)
            && exists i | 0 <= i < |db.evidence| ::
                 && StoredAs(cfg, db, db.evidence[i], db.steps[n].invocation.value.evidence.value,
                             db.steps[n].invocation.value.tool, outcome)
                 && forall j | 0 <= j < |db.evidence| && j != i ::
                      Some(db.evidence[j].id) != db.steps[n].invocation.value.evidence
  {
    RunArchive(cfg, init, trace);
    var db, outcome := Run(cfg, init, trace).value.db, Outcomes(cfg, init, map[], trace)[n];
    assert Kept(cfg, db, n, outcome);
    var call := db.steps[n].invocation.value;
    var e :| e in db.evidence && StoredAs(cfg, db, e, call.evidence.value, call.tool, outcome);
    var i :| 0 <= i < |db.evidence| && db.evidence[i] == e;
    forall j | 0 <= j < |db.evidence| && j != i ensures Some(db.evidence[j].id) != call.evidence {
      assert db.evidence[if i < j then i else j].id != db.evidence[if i < j then j else i].id;
    }
  }

  /** There is no other evidence: every row is the alert's or that of exactly one call. */
  lemma EvidenceIsExplained(cfg: Config, init: Sys, trace: seq<Action>, e: Evidence)
    requires Init(cfg, init) && Run(cfg, init, trace).Some? && e in Run(cfg, init, trace).value.db.evidence
    ensures var db, h := Run(cfg, init, trace).value.db, Outcomes(cfg, init, map[], trace);
            || (e.kind == AlertPayload && e.source == "alert")
            || exists n | n in h ::
                 && n in db.steps && Produced(db.steps[n]) == Some(e.id)
                 && forall m | m in h && m != n :: m in db.steps && Produced(db.steps[m]) != Some(e.id)
  {
    RunArchive(cfg, init, trace);
    var db, h := Run(cfg, init, trace).value.db, Outcomes(cfg, init, map[], trace);
    assert Explained(db, e, h);
    if n :| n in h && n in db.steps && Produced(db.steps[n]) == Some(e.id) {
      forall m | m in h && m != n ensures m in db.steps && Produced(db.steps[m]) != Some(e.id) {
        assert Kept(cfg, db, m, h[m]);
        assert Produced(db.steps[if m < n then m else n]) != Produced(db.steps[if m < n then n else m]);
      }
    }
  }
}
