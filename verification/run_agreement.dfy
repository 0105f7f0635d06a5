/**
 * An agent run appears twice in this model: as the row a worker changes (AgentDatabase) and as one row
 * beside incidents, plans and executions (OpsDatabase). Both views of a run agree for ever.
 */
module RunAgreement {
  import opened Common
  import opened Domain
  import opened ContextMemory
  import opened AgentDecision
  import A = AgentDatabase
  import O = OpsDatabase

  /** The transactions that change the status of a run or the time it started. */
  datatype Change =
    | Claim(w: A.WorkerId, alert: Evidence)
    | Finish(status: RunStatus, reason: string, diagnosis: Option<Diagnosis>)
    | RequestCancel
    | FailRun
    | Recover(cutoff: int)
    | Tick(now: int)

  /** One run in both views. */
  datatype Views = Views(alone: A.Db, tables: O.Db)

  predicate Agree(v: Views, r: O.Id) {
    && r < |v.tables.runs| && O.RefsOk(v.tables)
    && v.alone.run.status == v.tables.runs[r].status
    && v.alone.run.startedAt == v.tables.runs[r].startedAt
    && v.alone.now == v.tables.now
  }

  function Alone(db: A.Db, c: Change): A.Db {
    match c
    case Claim(w, alert) => A.Claim(db, w, alert)
    case Finish(status, reason, diagnosis) => A.Finish(db, status, reason, diagnosis)
    case RequestCancel => A.RequestCancel(db)
    case FailRun => A.FailRun(db)
    case Recover(cutoff) => A.Recover(db, cutoff)
    case Tick(now) => db.(now := now)
  }

  function Accepted(db: O.Db, r: Result<O.Db, O.Error>): O.Db { if r.Ok? then r.value else db }

  /** The same change among the tables; a claim the lease refuses is none. */
  function InTables(v: Views, r: O.Id, c: Change): O.Db
    requires Agree(v, r)
  {
    match c
    case Claim(w, _) =>
      if A.LeaseHeldByOther(v.alone.run, w, v.alone.now) then v.tables else O.ClaimRun(v.tables, r)
    case Finish(status, _, _) => O.FinishRun(v.tables, r, status)
    case RequestCancel => Accepted(v.tables, O.RequestCancel(v.tables, r))
    case FailRun => Accepted(v.tables, O.FailRun(v.tables, r))
    case Recover(cutoff) => if O.RunDue(v.tables, r, cutoff) then O.RecoverRun(v.tables, r) else v.tables
    case Tick(now) => v.tables.(now := now)
  }

  function Changed(v: Views, r: O.Id, c: Change): Views
    requires Agree(v, r)
  {
    Views(Alone(v.alone, c), InTables(v, r, c))
  }

  lemma ClaimAgrees(v: Views, r: O.Id, w: A.WorkerId, alert: Evidence)
    requires Agree(v, r)
    ensures Agree(Changed(v, r, Claim(w, alert)), r)
  {
  }

  lemma FinishAgrees(v: Views, r: O.Id, status: RunStatus, reason: string, diagnosis: Option<Diagnosis>)
    requires Agree(v, r)
    ensures Agree(Changed(v, r, Finish(status, reason, diagnosis)), r)
  {
  }

  lemma RecoverAgrees(v: Views, r: O.Id, cutoff: int)
    requires Agree(v, r)
    ensures Agree(Changed(v, r, Recover(cutoff)), r)
  {
  }

  /** No unfinished run refuses to fail, and a failing run never leaves its incident under diagnosis. */
  lemma FailAgrees(v: Views, r: O.Id)
    requires Agree(v, r)
    ensures O.FailRun(v.tables, r).Ok?
    ensures Agree(Changed(v, r, FailRun), r)
  {
    assert TerminalRun(v.alone.run.status) || RunStatus.Failed in RunEdges(v.alone.run.status);
  }

  lemma ChangeKeepsAgreement(v: Views, r: O.Id, c: Change)
    requires Agree(v, r)
    ensures Agree(Changed(v, r, c), r)
  {
    match c
    case Claim(w, alert) => ClaimAgrees(v, r, w, alert);
    case Finish(status, reason, diagnosis) => FinishAgrees(v, r, status, reason, diagnosis);
    case FailRun => FailAgrees(v, r);
    case Recover(cutoff) => RecoverAgrees(v, r, cutoff);
    case RequestCancel =>
    case Tick(now) =>
  }

  /** The views after a sequence of changes. */
  function AllChanged(v: Views, r: O.Id, changes: seq<Change>): (v': Views)
    requires Agree(v, r)
    decreases |changes|
  {
    if changes == [] then v
    else
      ChangeKeepsAgreement(v, r, changes[0]);
      AllChanged(Changed(v, r, changes[0]), r, changes[1..])
  }

  /** Claimed, finished, cancelled, failed and swept in any order, a run has one status and one start in both views. */
  lemma {:induction false} ViewsAgree(v: Views, r: O.Id, changes: seq<Change>)
    requires Agree(v, r)
    ensures Agree(AllChanged(v, r, changes), r)
    decreases |changes|
  {
    if changes != [] {
      ChangeKeepsAgreement(v, r, changes[0]);
      ViewsAgree(Changed(v, r, changes[0]), r, changes[1..]);
    }
  }
}
