/**
 * What a COMPLETED run rests on: a step whose citations were evidence of this run, fresh and not of
 * another uid when the decision was judged, in a context without conflicts.
 */
module AgentCompletion {
  import opened Common
  import opened Domain
  import opened ContextMemory
  import opened ContextBuilder
  import opened AgentDecision
  import D = AgentDatabase
  import opened AgentDatabase
  import opened AgentRun
  import opened AgentStructure

  /** An evidence row of this run that was recent, unexpired and not of another uid, judged on `basis`. */
  ghost predicate Supported(cfg: Config, evidence: seq<Evidence>, id: Id, basis: Basis) {
    exists e | e in evidence ::
      && e.id == id && e.runId == cfg.runId
      && Recent(e, basis.now, cfg.rules.items.ttls) && !OfOtherUid(e.content, basis.uid)
  }

  ghost predicate GoodCitations(cfg: Config, evidence: seq<Evidence>, ids: seq<Id>, basis: Basis) {
    ids != [] && forall id | id in ids :: Supported(cfg, evidence, id, basis)
  }

  lemma GoodCitationsGrow(cfg: Config, evidence: seq<Evidence>, evidence': seq<Evidence>, ids: seq<Id>, basis: Basis)
    requires GoodCitations(cfg, evidence, ids, basis) && evidence <= evidence'
    ensures GoodCitations(cfg, evidence', ids, basis)
  {
    forall id | id in ids ensures Supported(cfg, evidence', id, basis) {
      var e :| e in evidence && e.id == id && e.runId == cfg.runId
            && Recent(e, basis.now, cfg.rules.items.ttls) && !OfOtherUid(e.content, basis.uid);
      assert e in evidence';
    }
  }

  predicate HasDecision(pc: Pc) { pc.Decided? || pc.Recorded? || pc.Cleared? }

  /**
   * A decision to complete is supported, names its citations in the diagnosis, and saw no conflict;
   * a decision to call names a registered tool.
   */
  ghost predicate DecisionOk(cfg: Config, evidence: seq<Evidence>, f: Frame, d: Decision, basis: Basis) {
    && (d.kind.Complete? ==>
          && GoodCitations(cfg, evidence, d.evidenceIds, basis)
          && d.diagnosis.Some? && ToSet(d.diagnosis.value.citations) == ToSet(d.evidenceIds)
          && !f.context.selection.conflicting)
    && (d.kind.CallTool? ==> !Blank(d.tool) && d.tool.value in cfg.registry)
  }

  ghost predicate PcOk(cfg: Config, s: Sys, pc: Pc) {
    && (HasDecision(pc) ==> DecisionOk(cfg, s.db.evidence, pc.f, pc.d, pc.basis))
    && (pc.Recorded? || pc.Cleared? ==>
          && Sequence(pc.f) in s.db.steps && Sequence(pc.f) in s.basis
          && s.db.steps[Sequence(pc.f)].kind == Some(pc.d.kind)
          && s.db.steps[Sequence(pc.f)].evidenceIds == pc.d.evidenceIds)
    && (pc.Finishing? ==> (pc.status.Completed? <==> pc.diagnosis.Some?))
    && (pc.Finishing? && pc.status.Completed? ==>
          pc.step <= s.db.run.currentStep && CompletedBy(s.db, pc.step, pc.diagnosis.value))
  }

  /** Step `n` ended successfully with a decision to complete that cites what the diagnosis cites. */
  ghost predicate CompletedBy(db: Db, n: nat, diagnosis: Diagnosis) {
    && n in db.steps
    && db.steps[n].kind == Some(Complete) && db.steps[n].status.Succeeded?
    && ToSet(diagnosis.citations) == ToSet(db.steps[n].evidenceIds)
  }

  ghost predicate RowOk(cfg: Config, s: Sys, n: nat)
    requires n in s.db.steps
  {
    s.db.steps[n].kind == Some(Complete) ==>
      && n in s.basis
      && GoodCitations(cfg, s.db.evidence, s.db.steps[n].evidenceIds, s.basis[n])
      && !s.db.steps[n].conflicting
  }

  ghost predicate RunOk(s: Sys) {
    s.db.run.status.Completed? ==>
      && s.completedBy.Some? && s.db.run.diagnosis.Some?
      && s.completedBy.value <= s.db.run.currentStep
      && CompletedBy(s.db, s.completedBy.value, s.db.run.diagnosis.value)
  }

  ghost predicate Completion(cfg: Config, s: Sys) {
    && (forall n | n in s.db.steps :: RowOk(cfg, s, n))
    && (forall w | w in s.workers :: PcOk(cfg, s, s.workers[w].pc))
    && RunOk(s)
  }

  // ---- Steps that record no decision and finish no run ----

  /** Decision columns stay, and closed rows stay altogether. */
  ghost predicate KeepsRows(s: Sys, s': Sys) {
    && s.db.evidence <= s'.db.evidence && s'.basis == s.basis
    && s.db.run.currentStep <= s'.db.run.currentStep
    && (forall n | n in s.db.steps ::
          && n in s'.db.steps
          && s'.db.steps[n].kind == s.db.steps[n].kind && s'.db.steps[n].evidenceIds == s.db.steps[n].evidenceIds
          && s'.db.steps[n].conflicting == s.db.steps[n].conflicting
          && (n <= s.db.run.currentStep ==> s'.db.steps[n] == s.db.steps[n]))
    && (forall n | n in s'.db.steps && n !in s.db.steps :: s'.db.steps[n].kind.None?)
  }

  lemma PcOkGrows(cfg: Config, s: Sys, s': Sys, pc: Pc)
    requires PcOk(cfg, s, pc) && KeepsRows(s, s')
    ensures PcOk(cfg, s', pc)
  {
    if HasDecision(pc) && pc.d.kind.Complete? {
      GoodCitationsGrow(cfg, s.db.evidence, s'.db.evidence, pc.d.evidenceIds, pc.basis);
    }
  }

  lemma RowsOkGrow(cfg: Config, s: Sys, s': Sys, n: nat)
    requires Completion(cfg, s) && KeepsRows(s, s') && n in s'.db.steps
    ensures RowOk(cfg, s', n)
  {
    if n in s.db.steps && s.db.steps[n].kind == Some(Complete) {
      assert RowOk(cfg, s, n);
      GoodCitationsGrow(cfg, s.db.evidence, s'.db.evidence, s.db.steps[n].evidenceIds, s.basis[n]);
    }
  }

  lemma CompletionFrame(cfg: Config, s: Sys, s': Sys)
    requires Completion(cfg, s) && KeepsRows(s, s')
    requires forall w | w in s'.workers :: s'.workers[w].pc == PcOf(s, w) || PcOk(cfg, s', s'.workers[w].pc)
    requires !s'.db.run.status.Completed?
             || (s.db.run.status.Completed? && s'.db.run.diagnosis == s.db.run.diagnosis && s'.completedBy == s.completedBy)
    ensures Completion(cfg, s')
  {
    forall n | n in s'.db.steps ensures RowOk(cfg, s', n) {
      RowsOkGrow(cfg, s, s', n);
    }
    forall w | w in s'.workers ensures PcOk(cfg, s', s'.workers[w].pc) {
      if w in s.workers && s'.workers[w].pc == s.workers[w].pc {
        PcOkGrows(cfg, s, s', s.workers[w].pc);
      }
    }
  }

  /** A step of worker `w` to a place that promises nothing new. */
  lemma WorkerFrame(cfg: Config, s: Sys, s': Sys, w: WorkerId)
    requires Completion(cfg, s) && KeepsRows(s, s')
    requires w in s'.workers && s'.workers == s.workers[w := s'.workers[w]]
    requires PcOk(cfg, s', s'.workers[w].pc)
    requires !s'.db.run.status.Completed?
             || (s.db.run.status.Completed? && s'.db.run.diagnosis == s.db.run.diagnosis && s'.completedBy == s.completedBy)
    ensures Completion(cfg, s')
  {
    CompletionFrame(cfg, s, s');
  }

  // ---- Where a decision comes from ----

  lemma ValidDecision(cfg: Config, d: Decision, visible: set<Id>)
    requires Wired(cfg) && cfg.validate(d, visible).None?
    ensures d.kind.Complete? ==>
              && d.evidenceIds != [] && ToSet(d.evidenceIds) <= visible
              && d.diagnosis.Some? && ToSet(d.diagnosis.value.citations) == ToSet(d.evidenceIds)
    ensures d.kind.CallTool? ==> !Blank(d.tool) && d.tool.value in cfg.registry
  {
    AcceptedIffConsistent(cfg.text, cfg.registry, d, visible);
  }

  /** Ids the model may conclude from are supported rows of the snapshot. */
  lemma CurrentIdSupported(cfg: Config, f: Frame, id: Id)
    requires Wired(cfg) && FrameOk(cfg, f) && id in CurrentIds(f.context)
    ensures Supported(cfg, f.snap.evidence, id, Basis(f.now, f.snap.run.targetUid))
  {
    var request := RequestOf(cfg, f.snap, f.now, f.budget);
    assert Build(cfg.rules, request) == Ok(f.context);
    BuiltContextDescribesRun(cfg.rules, request);
    var item :| item in f.context.evidence && Current(item) && item.id == id;
    assert Describes(cfg.rules, request, item);
  }

  lemma ModelDecisionOk(cfg: Config, f: Frame, d: Decision)
    requires Wired(cfg) && FrameOk(cfg, f) && ModelDecisionStands(cfg, f.context, d)
    ensures DecisionOk(cfg, f.snap.evidence, f, d, Basis(f.now, f.snap.run.targetUid))
  {
    ValidDecision(cfg, d, ToSet(f.context.visible));
    if d.kind.Complete? {
      forall id | id in d.evidenceIds
        ensures Supported(cfg, f.snap.evidence, id, Basis(f.now, f.snap.run.targetUid))
      {
        assert id in ToSet(d.evidenceIds);
        CurrentIdSupported(cfg, f, id);
      }
    }
  }

  /** The rules are given exactly the rows of the run that are recent, unexpired and of no other uid. */
  lemma EligibleIffRecent(cfg: Config, f: Frame, now: int, id: Id)
    requires Wired(cfg)
    ensures id in EligibleIds(cfg, f, now) <==> Supported(cfg, f.snap.evidence, id, Basis(now, f.snap.run.targetUid))
  {
    forall e | e in f.snap.evidence
      ensures FreshnessOf(e, now, cfg.rules.items.ttls).Fresh? <==> Recent(e, now, cfg.rules.items.ttls)
      ensures UidStatusOf(UidOf(e.content), f.snap.run.targetUid).Mismatch? <==>
                OfOtherUid(e.content, f.snap.run.targetUid)
    {
      FreshIffRecent(e, now, cfg.rules.items.ttls);
      UidStatusIff(e.content, f.snap.run.targetUid);
    }
  }

  lemma RuleDecisionOk(cfg: Config, f: Frame, now: int, proposal: Decision)
    requires Wired(cfg)
    ensures var pc := RuleOutcome(cfg, f, now, proposal);
            pc.Decided? ==> pc.f == f && DecisionOk(cfg, f.snap.evidence, f, pc.d, pc.basis)
  {
    var pc := RuleOutcome(cfg, f, now, proposal);
    if pc.Decided? {
      ValidDecision(cfg, pc.d, if f.context.selection.conflicting then {} else EligibleIds(cfg, f, now));
    }
    if pc.Decided? && pc.d.kind.Complete? {
      forall id | id in pc.d.evidenceIds ensures Supported(cfg, f.snap.evidence, id, pc.basis) {
        assert id in ToSet(pc.d.evidenceIds);
        EligibleIffRecent(cfg, f, now, id);
      }
    }
  }

  /** The model's decision stands exactly when it is acceptable and, to conclude, cites items shown as current only. */
  lemma ModelStandsIff(cfg: Config, context: View, d: Decision)
    requires Wired(cfg)
    ensures ModelDecisionStands(cfg, context, d) <==>
              && cfg.text.schemaValid(d) && !cfg.text.executable(d) && Consistent(cfg.registry, d)
              && (forall id | id in d.evidenceIds :: id in context.visible)
              && (d.kind.Complete? ==> !context.selection.conflicting && forall id | id in d.evidenceIds ::
                    exists item | item in context.evidence ::
                      item.id == id && item.freshness == Fresh && item.uidStatus != Mismatch)
  {
    AcceptedIffConsistent(cfg.text, cfg.registry, d, ToSet(context.visible));
    if d.kind.Complete? && ToSet(d.evidenceIds) <= CurrentIds(context) {
      forall id | id in d.evidenceIds
        ensures exists item | item in context.evidence ::
                  item.id == id && item.freshness == Fresh && item.uidStatus != Mismatch
      {
        assert id in ToSet(d.evidenceIds);
      }
    }
  }

  /**
   * Without the model's decision: a conflict hands over to a human; otherwise the rules' proposal is taken
   * exactly when it is acceptable and cites only recent rows of this run that are of no other uid, now.
   */
  lemma RuleTakenIff(cfg: Config, f: Frame, now: int, proposal: Decision)
    requires Wired(cfg)
    ensures var pc := RuleOutcome(cfg, f, now, proposal);
            && (pc.Decided? || pc.Undecided?) && pc.f == f
            && (pc.Decided? ==> pc.basis.now == now && pc.basis.uid == f.snap.run.targetUid)
            && (f.context.selection.conflicting && pc.Decided? ==>
                  pc.d.kind.AskHuman? && pc.d.stopReason == Some("CONFLICTING_EVIDENCE") && pc.d.evidenceIds == [])
            && (!f.context.selection.conflicting ==>
                  && (pc.Decided? ==> pc.d == proposal)
                  && (pc.Decided? <==>
                        && cfg.text.schemaValid(proposal) && !cfg.text.executable(proposal)
                        && Consistent(cfg.registry, proposal)
                        && forall id | id in proposal.evidenceIds ::
                             Supported(cfg, f.snap.evidence, id, Basis(now, f.snap.run.targetUid))))
  {
    if !f.context.selection.conflicting {
      AcceptedIffConsistent(cfg.text, cfg.registry, proposal, EligibleIds(cfg, f, now));
      forall id ensures id in EligibleIds(cfg, f, now) <==>
        Supported(cfg, f.snap.evidence, id, Basis(now, f.snap.run.targetUid))
      {
        EligibleIffRecent(cfg, f, now, id);
      }
    }
  }

  lemma DecisionOkGrows(cfg: Config, evidence: seq<Evidence>, evidence': seq<Evidence>, f: Frame, d: Decision, basis: Basis)
    requires DecisionOk(cfg, evidence, f, d, basis) && evidence <= evidence'
    ensures DecisionOk(cfg, evidence', f, d, basis)
  {
    if d.kind.Complete? {
      GoodCitationsGrow(cfg, evidence, evidence', d.evidenceIds, basis);
    }
  }

  // ---- Every step keeps completion sound ----

  /** Where a settlement leaves its worker. */
  ghost predicate SettledTo(cfg: Config, f: Frame, pc: Pc) {
    || pc.Undecided? || pc.Ruling?
    || (pc.Decided? && pc.f == f && pc.basis == Basis(f.now, f.snap.run.targetUid)
        && ModelDecisionStands(cfg, f.context, pc.d))
  }

  lemma SettleShape(cfg: Config, s: Sys, s': Sys, w: WorkerId, answer: Answer)
    requires StepSettle(cfg, s, w, answer) == Some(s')
    ensures PcOf(s, w).InFlight? && w in s'.workers && s'.workers == s.workers[w := s'.workers[w]]
    ensures s'.db.steps == s.db.steps && s'.db.evidence == s.db.evidence && s'.basis == s.basis
    ensures s'.db.run.status == s.db.run.status && s'.db.run.diagnosis == s.db.run.diagnosis
    ensures s'.db.run.currentStep == s.db.run.currentStep && s'.completedBy == s.completedBy
    ensures SettledTo(cfg, PcOf(s, w).f, s'.workers[w].pc)
  {
  }

  lemma SettledDecisionOk(cfg: Config, s: Sys, s': Sys, w: WorkerId, f: Frame, pc: Pc)
    requires Wired(cfg) && FrameOk(cfg, f) && f.snap.evidence <= s.db.evidence && s'.db.evidence == s.db.evidence
    requires SettledTo(cfg, f, pc)
    ensures PcOk(cfg, s', pc)
  {
    if pc.Decided? {
      ModelDecisionOk(cfg, f, pc.d);
      DecisionOkGrows(cfg, f.snap.evidence, s'.db.evidence, f, pc.d, pc.basis);
    }
  }

  lemma SettleKeepsCompletion(cfg: Config, s: Sys, w: WorkerId, answer: Answer)
    requires Wired(cfg) && Structure(cfg, s) && Completion(cfg, s) && StepSettle(cfg, s, w, answer).Some?
    ensures Completion(cfg, StepSettle(cfg, s, w, answer).value)
  {
    var s', f := StepSettle(cfg, s, w, answer).value, PcOf(s, w).f;
    SettleShape(cfg, s, s', w, answer);
    assert FrameOk(cfg, f) && f.snap.evidence <= s.db.evidence by {
      assert WorkerOk(cfg, s.db, s.calls, w, s.workers[w]);
    }
    SettledDecisionOk(cfg, s, s', w, f, s'.workers[w].pc);
    WorkerFrame(cfg, s, s', w);
  }

  lemma RuleKeepsCompletion(cfg: Config, s: Sys, w: WorkerId, proposal: Decision)
    requires Wired(cfg) && Structure(cfg, s) && Completion(cfg, s) && StepRule(cfg, s, w, proposal).Some?
    ensures Completion(cfg, StepRule(cfg, s, w, proposal).value)
  {
    var s', f := StepRule(cfg, s, w, proposal).value, PcOf(s, w).f;
    assert WorkerOk(cfg, s.db, s.calls, w, s.workers[w]);
    RuleDecisionOk(cfg, f, s.db.now, proposal);
    var pc := s'.workers[w].pc;
    if pc.Decided? {
      DecisionOkGrows(cfg, f.snap.evidence, s'.db.evidence, f, pc.d, pc.basis);
    }
    WorkerFrame(cfg, s, s', w);
  }

  /** A decision is written into the row past current_step. */
  ghost predicate Records(s: Sys, s': Sys, w: WorkerId, f: Frame, d: Decision, basis: Basis) {
    var q := Sequence(f);
    && q in s.db.steps && q in s'.db.steps
    && s'.db == s.db.(steps := s.db.steps[q := s'.db.steps[q]])
    && s'.db.steps[q] == s.db.steps[q].(kind := Some(d.kind), summary := d.summary, evidenceIds := d.evidenceIds)
    && s'.basis == s.basis[q := basis] && s'.completedBy == s.completedBy
    && w in s'.workers && s'.workers == s.workers[w := s'.workers[w]] && s'.workers[w].pc == Recorded(f, d, basis)
  }

  lemma RecordShape(cfg: Config, s: Sys, w: WorkerId)
    requires StepRecord(cfg, s, w).Some?
    ensures PcOf(s, w).Decided?
    ensures var pc := PcOf(s, w); Records(s, StepRecord(cfg, s, w).value, w, pc.f, pc.d, pc.basis)
  {
  }

  /** The only worker inside a step is on the row past current_step. */
  lemma OnlyHolder(cfg: Config, s: Sys, w: WorkerId)
    requires Structure(cfg, s) && Holds(PcOf(s, w))
    ensures Sequence(PcOf(s, w).f) == s.db.run.currentStep + 1 && Sequence(PcOf(s, w).f) in s.db.steps
    ensures s.db.steps[Sequence(PcOf(s, w).f)].conflicting == PcOf(s, w).f.context.selection.conflicting
    ensures forall x | x in s.workers && Holds(s.workers[x].pc) :: x == w
  {
    assert WorkerOk(cfg, s.db, s.calls, w, s.workers[w]);
    forall x | x in s.workers && Holds(s.workers[x].pc) ensures x == w {
      assert WorkerOk(cfg, s.db, s.calls, x, s.workers[x]);
    }
  }

  lemma RecordedKeeps(cfg: Config, s: Sys, s': Sys, w: WorkerId, pc: Pc)
    requires Completion(cfg, s) && pc == PcOf(s, w) && pc.Decided? && Records(s, s', w, pc.f, pc.d, pc.basis)
    requires Sequence(pc.f) == s.db.run.currentStep + 1
    requires s.db.steps[Sequence(pc.f)].conflicting == pc.f.context.selection.conflicting
    requires forall x | x in s.workers && Holds(s.workers[x].pc) :: x == w
    ensures Completion(cfg, s')
  {
    assert PcOk(cfg, s, pc);
    forall n | n in s'.db.steps ensures RowOk(cfg, s', n) {
      assert RowOk(cfg, s, n);
    }
    forall x | x in s'.workers ensures PcOk(cfg, s', s'.workers[x].pc) {
      if x != w {
        assert PcOk(cfg, s, s.workers[x].pc);
      }
    }
  }

  lemma RecordKeepsCompletion(cfg: Config, s: Sys, w: WorkerId)
    requires Structure(cfg, s) && Completion(cfg, s) && StepRecord(cfg, s, w).Some?
    ensures Completion(cfg, StepRecord(cfg, s, w).value)
  {
    RecordShape(cfg, s, w);
    OnlyHolder(cfg, s, w);
    RecordedKeeps(cfg, s, StepRecord(cfg, s, w).value, w, PcOf(s, w));
  }

  lemma DispatchKeepsCompletion(cfg: Config, s: Sys, w: WorkerId)
    requires Structure(cfg, s) && Completion(cfg, s) && StepDispatch(cfg, s, w).Some?
    ensures Completion(cfg, StepDispatch(cfg, s, w).value)
  {
    var s' := StepDispatch(cfg, s, w).value;
    DispatchShape(cfg, s, w);
    assert Sequence(PcOf(s, w).f) == s.db.run.currentStep + 1 by {
      assert WorkerOk(cfg, s.db, s.calls, w, s.workers[w]);
    }
    assert PcOk(cfg, s, PcOf(s, w));
    DispatchRowsKept(cfg, s, s', PcOf(s, w), s'.workers[w].pc);
    WorkerFrame(cfg, s, s', w);
  }

  lemma DispatchRowsKept(cfg: Config, s: Sys, s': Sys, pc: Pc, pc': Pc)
    requires pc.Cleared? && PcOk(cfg, s, pc) && Sequence(pc.f) == s.db.run.currentStep + 1
    requires DispatchShaped(cfg, s.db, pc.f, pc.d, s'.db, pc') && s'.basis == s.basis
    ensures KeepsRows(s, s') && PcOk(cfg, s', pc')
  {
  }

  lemma FinishKeepsCompletion(cfg: Config, s: Sys, w: WorkerId)
    requires Completion(cfg, s) && StepFinish(cfg, s, w).Some?
    ensures Completion(cfg, StepFinish(cfg, s, w).value)
  {
    var s', pc := StepFinish(cfg, s, w).value, PcOf(s, w);
    assert PcOk(cfg, s, pc);
    forall n | n in s'.db.steps ensures RowOk(cfg, s', n) {
      RowsOkGrow(cfg, s, s', n);
    }
    forall x | x in s'.workers ensures PcOk(cfg, s', s'.workers[x].pc) {
      if x != w {
        PcOkGrows(cfg, s, s', s.workers[x].pc);
      }
    }
  }

  lemma CommitKeepsCompletion(cfg: Config, s: Sys, w: WorkerId, outcome: Outcome, id: Id)
    requires Structure(cfg, s) && Completion(cfg, s) && StepCommit(cfg, s, w, outcome, id).Some?
    ensures Completion(cfg, StepCommit(cfg, s, w, outcome, id).value)
  {
    var s' := StepCommit(cfg, s, w, outcome, id).value;
    assert WorkerOk(cfg, s.db, s.calls, w, s.workers[w]);
    CommitRowsKept(cfg, s, w, outcome, id);
    WorkerFrame(cfg, s, s', w);
  }

  lemma CommitRowsKept(cfg: Config, s: Sys, w: WorkerId, outcome: Outcome, id: Id)
    requires StepCommit(cfg, s, w, outcome, id).Some? && PcOf(s, w).ToolRunning?
    requires Sequence(PcOf(s, w).f) == s.db.run.currentStep + 1
    ensures var s' := StepCommit(cfg, s, w, outcome, id).value;
            && KeepsRows(s, s') && PcOk(cfg, s', s'.workers[w].pc)
            && s'.workers == s.workers[w := s'.workers[w]]
            && s'.db.run.status == s.db.run.status && s'.db.run.diagnosis == s.db.run.diagnosis
            && s'.completedBy == s.completedBy
  {
  }

  /** A step that closes its own row without success. */
  ghost predicate ClosesRow(s: Sys, s': Sys, w: WorkerId) {
    && Holds(PcOf(s, w)) && w in s'.workers && s'.workers == s.workers[w := s'.workers[w]]
    && s'.workers[w].pc.Finishing? && !s'.workers[w].pc.status.Completed? && s'.workers[w].pc.diagnosis.None?
    && s'.completedBy == s.completedBy && s'.basis == s.basis
    && s'.db.evidence == s.db.evidence
    && s'.db.run == s.db.run.(currentStep := s'.db.run.currentStep)
    && var q := Sequence(PcOf(s, w).f);
       && s'.db.run.currentStep in {s.db.run.currentStep, q}
       && q in s.db.steps && q in s'.db.steps && s'.db.steps == s.db.steps[q := s'.db.steps[q]]
       && s'.db.steps[q].kind == s.db.steps[q].kind && s'.db.steps[q].evidenceIds == s.db.steps[q].evidenceIds
       && s'.db.steps[q].conflicting == s.db.steps[q].conflicting
  }

  lemma FailStepCloses(cfg: Config, s: Sys, w: WorkerId)
    requires StepFail(cfg, s, w).Some?
    ensures ClosesRow(s, StepFail(cfg, s, w).value, w)
  {
  }

  lemma EndCloses(cfg: Config, s: Sys, w: WorkerId)
    requires StepEnd(cfg, s, w).Some?
    ensures ClosesRow(s, StepEnd(cfg, s, w).value, w)
  {
  }

  lemma CloseKeepsCompletion(cfg: Config, s: Sys, s': Sys, w: WorkerId)
    requires Structure(cfg, s) && Completion(cfg, s) && ClosesRow(s, s', w)
    ensures Completion(cfg, s')
  {
    assert WorkerOk(cfg, s.db, s.calls, w, s.workers[w]);
    WorkerFrame(cfg, s, s', w);
  }

  lemma InsertKeepsCompletion(cfg: Config, s: Sys, w: WorkerId)
    requires Completion(cfg, s) && StepInsert(cfg, s, w).Some?
    ensures Completion(cfg, StepInsert(cfg, s, w).value)
  {
    InsertShape(cfg, s, w);
    WorkerFrame(cfg, s, StepInsert(cfg, s, w).value, w);
  }

  lemma ReserveKeepsCompletion(cfg: Config, s: Sys, w: WorkerId)
    requires Completion(cfg, s) && StepReserve(cfg, s, w).Some?
    ensures Completion(cfg, StepReserve(cfg, s, w).value)
  {
    WorkerFrame(cfg, s, StepReserve(cfg, s, w).value, w);
  }

  lemma CheckKeepsCompletion(cfg: Config, s: Sys, w: WorkerId)
    requires Completion(cfg, s) && StepCheck(cfg, s, w).Some?
    ensures Completion(cfg, StepCheck(cfg, s, w).value)
  {
    assert PcOk(cfg, s, PcOf(s, w));
    WorkerFrame(cfg, s, StepCheck(cfg, s, w).value, w);
  }

  lemma ObserveKeepsCompletion(cfg: Config, s: Sys, w: WorkerId)
    requires Completion(cfg, s) && StepObserve(cfg, s, w).Some?
    ensures Completion(cfg, StepObserve(cfg, s, w).value)
  {
    PreparedHasNoDecision(cfg, Snapshot(s.db.run, s.db.steps, s.db.evidence), s.db.now);
    WorkerFrame(cfg, s, StepObserve(cfg, s, w).value, w);
  }

  lemma PreparedHasNoDecision(cfg: Config, snap: Snapshot, now: int)
    ensures var pc := Prepare(cfg, snap, now);
            pc.Ready? || (pc.Finishing? && !pc.status.Completed? && pc.diagnosis.None?)
  {
  }

  lemma ClaimKeepsCompletion(cfg: Config, s: Sys, w: WorkerId, id: Id, content: Content)
    requires Completion(cfg, s) && StepClaim(cfg, s, w, id, content).Some?
    ensures Completion(cfg, StepClaim(cfg, s, w, id, content).value)
  {
    WorkerFrame(cfg, s, StepClaim(cfg, s, w, id, content).value, w);
  }

  /** Steps that touch the worker's own row or the run's ends. */
  lemma OwnStepKeepsCompletion(cfg: Config, s: Sys, a: Action)
    requires Wired(cfg) && Structure(cfg, s) && Completion(cfg, s) && Step(cfg, s, a).Some?
    requires a.Settle? || a.Rule? || a.FailStep? || a.Record? || a.End? || a.Dispatch? || a.Commit? || a.Finish?
    ensures Completion(cfg, Step(cfg, s, a).value)
  {
    match a
    case Settle(w, answer) => SettleKeepsCompletion(cfg, s, w, answer);
    case Rule(w, proposal) => RuleKeepsCompletion(cfg, s, w, proposal);
    case FailStep(w) =>
      FailStepCloses(cfg, s, w);
      CloseKeepsCompletion(cfg, s, Step(cfg, s, a).value, w);
    case Record(w) => RecordKeepsCompletion(cfg, s, w);
    case End(w) =>
      EndCloses(cfg, s, w);
      CloseKeepsCompletion(cfg, s, Step(cfg, s, a).value, w);
    case Dispatch(w) => DispatchKeepsCompletion(cfg, s, w);
    case Commit(w, outcome, id) => CommitKeepsCompletion(cfg, s, w, outcome, id);
    case Finish(w) => FinishKeepsCompletion(cfg, s, w);
  }

  /** The failure of a worker changes no row. */
  lemma LeaveKeepsCompletion(cfg: Config, s: Sys, w: WorkerId, pc: Pc)
    requires Completion(cfg, s) && (pc.Idle? || pc.Crashed?)
    ensures Completion(cfg, Goto(s, s.db, w, pc)) && Completion(cfg, Goto(s, D.FailRun(s.db), w, pc))
  {
    WorkerFrame(cfg, s, Goto(s, s.db, w, pc), w);
    WorkerFrame(cfg, s, Goto(s, D.FailRun(s.db), w, pc), w);
  }

  lemma EnvironmentKeepsCompletion(cfg: Config, s: Sys, cutoff: int, now: int)
    requires Completion(cfg, s)
    ensures Completion(cfg, s.(db := D.RequestCancel(s.db))) && Completion(cfg, s.(db := D.Recover(s.db, cutoff)))
    ensures Completion(cfg, s.(db := s.db.(now := now)))
  {
    CompletionFrame(cfg, s, s.(db := D.RequestCancel(s.db)));
    CompletionFrame(cfg, s, s.(db := D.Recover(s.db, cutoff)));
    CompletionFrame(cfg, s, s.(db := s.db.(now := now)));
  }

  lemma OtherStepKeepsCompletion(cfg: Config, s: Sys, a: Action)
    requires Wired(cfg) && Structure(cfg, s) && Completion(cfg, s) && Step(cfg, s, a).Some?
    requires a.Claim? || a.Observe? || a.Insert? || a.Reserve? || a.Check?
    ensures Completion(cfg, Step(cfg, s, a).value)
  {
    match a
    case Claim(w, id, content) => ClaimKeepsCompletion(cfg, s, w, id, content);
    case Observe(w) => ObserveKeepsCompletion(cfg, s, w);
    case Insert(w) => InsertKeepsCompletion(cfg, s, w);
    case Reserve(w) => ReserveKeepsCompletion(cfg, s, w);
    case Check(w) => CheckKeepsCompletion(cfg, s, w);
  }

  lemma StepKeepsCompletion(cfg: Config, s: Sys, a: Action)
    requires Wired(cfg) && Structure(cfg, s) && Completion(cfg, s) && Step(cfg, s, a).Some?
    ensures Completion(cfg, Step(cfg, s, a).value)
  {
    match a
    case Raise(w) => LeaveKeepsCompletion(cfg, s, w, Crashed);
    case FailRun(w) => LeaveKeepsCompletion(cfg, s, w, Idle);
    case Die(w) => LeaveKeepsCompletion(cfg, s, w, Idle);
    case RequestCancel => EnvironmentKeepsCompletion(cfg, s, 0, 0);
    case Recover(cutoff) => EnvironmentKeepsCompletion(cfg, s, cutoff, 0);
    case Tick(now) => EnvironmentKeepsCompletion(cfg, s, 0, now);
    case _ =>
      if a.Claim? || a.Observe? || a.Insert? || a.Reserve? || a.Check? {
        OtherStepKeepsCompletion(cfg, s, a);
      } else {
        OwnStepKeepsCompletion(cfg, s, a);
      }
  }
}
