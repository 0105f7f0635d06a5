/**
 * Alert intake: `create_incident` (app/ops_agent/services.py) as it interleaves with itself and with
 * whatever moves incidents along their state machine.
 */
module Intake {
  import opened Common
  import opened Domain

  type Id = nat
  type CallerId = nat

  /** The columns intake reads and writes; ids are positions. */
  datatype Row = Row(fingerprint: string, status: IncidentStatus, occurrences: nat)

  predicate ActiveFor(row: Row, fingerprint: string) {
    row.fingerprint == fingerprint && ActiveIncident(row.status)
  }

  predicate HasActive(rows: seq<Row>, fingerprint: string) {
    exists i | 0 <= i < |rows| :: ActiveFor(rows[i], fingerprint)
  }

  /** The unique index: one active incident per fingerprint. */
  predicate UniqueActive(rows: seq<Row>) {
    forall i, j | 0 <= i < j < |rows| :: !(ActiveFor(rows[i], rows[j].fingerprint) && ActiveIncident(rows[j].status))
  }

  function Again(row: Row): Row { row.(occurrences := row.occurrences + 1) }

  /** `observe_existing`: every active row of the fingerprint is counted once more. */
  function Observed(rows: seq<Row>, fingerprint: string): (after: seq<Row>)
    ensures |after| == |rows|
    ensures forall i | 0 <= i < |rows| ::
              after[i] == if ActiveFor(rows[i], fingerprint) then Again(rows[i]) else rows[i]
  {
    seq(|rows|, i requires 0 <= i < |rows| => if ActiveFor(rows[i], fingerprint) then Again(rows[i]) else rows[i])
  }

  function Inserted(rows: seq<Row>, fingerprint: string): seq<Row> { rows + [Row(fingerprint, Open, 1)] }

  /** Where a caller is between its transactions. */
  datatype Pc = Idle | Inserting(fingerprint: string) | Retrying(fingerprint: string)

  /** `returned` counts, per fingerprint, the calls that returned an incident. */
  datatype State = State(rows: seq<Row>, callers: map<CallerId, Pc>, returned: multiset<string>)

  datatype Action =
    | Observe(c: CallerId, fingerprint: string)
    | Insert(c: CallerId)
    | ObserveAgain(c: CallerId)
    | Move(id: Id, to: IncidentStatus)
    | Die(c: CallerId)

  function PcOf(s: State, c: CallerId): Pc { if c in s.callers then s.callers[c] else Idle }

  function Return(s: State, c: CallerId, rows: seq<Row>, fingerprint: string): State {
    State(rows, s.callers[c := Idle], s.returned + multiset{fingerprint})
  }

  function Goto(s: State, c: CallerId, pc: Pc): State { s.(callers := s.callers[c := pc]) }

  function Step(s: State, a: Action): Option<State> {
    match a
    case Observe(c, fingerprint) =>
      if !PcOf(s, c).Idle? then None
      else if HasActive(s.rows, fingerprint) then Some(Return(s, c, Observed(s.rows, fingerprint), fingerprint))
      else Some(Goto(s, c, Inserting(fingerprint)))
    case Insert(c) =>
      (match PcOf(s, c)
       case Inserting(fingerprint) =>
         if HasActive(s.rows, fingerprint) then Some(Goto(s, c, Retrying(fingerprint)))
         else Some(Return(s, c, Inserted(s.rows, fingerprint), fingerprint))
       case _ => None)
    case ObserveAgain(c) =>
      (match PcOf(s, c)
       case Retrying(fingerprint) =>
         if HasActive(s.rows, fingerprint) then Some(Return(s, c, Observed(s.rows, fingerprint), fingerprint))
         else Some(Goto(s, c, Idle))
       case _ => None)
    // Every other status write is an edge of the incident state machine (module RemediationGuarantees).
    case Move(i, to) =>
      if i >= |s.rows| || to !in IncidentEdges(s.rows[i].status) then None
      else Some(s.(rows := s.rows[i := s.rows[i].(status := to)]))
    case Die(c) => Some(Goto(s, c, Idle))
  }

  function Run(s: State, trace: seq<Action>): Option<State>
    decreases |trace|
  {
    if trace == [] then Some(s)
    else
      match Step(s, trace[0])
      case None => None
      case Some(s') => Run(s', trace[1..])
  }

  const START := State([], map[], multiset{})

  // ---- Occurrence counts ----

  /** Occurrences of a fingerprint over all its incidents, active or not. */
  function Occurrences(rows: seq<Row>, fingerprint: string): nat {
    if rows == [] then 0
    else
      var last := |rows| - 1;
      Occurrences(rows[..last], fingerprint) + (if rows[last].fingerprint == fingerprint then rows[last].occurrences else 0)
  }

  lemma {:induction false} OccurrencesSame(rows: seq<Row>, after: seq<Row>, fingerprint: string)
    requires |after| == |rows|
    requires forall i | 0 <= i < |rows| ::
               after[i].fingerprint == rows[i].fingerprint
               && (rows[i].fingerprint == fingerprint ==> after[i].occurrences == rows[i].occurrences)
    ensures Occurrences(after, fingerprint) == Occurrences(rows, fingerprint)
    decreases |rows|
  {
    if rows != [] {
      OccurrencesSame(rows[..|rows| - 1], after[..|rows| - 1], fingerprint);
    }
  }

  /** With one active row an observation counts exactly one more. */
  lemma {:induction false} OccurrencesObserved(rows: seq<Row>, after: seq<Row>, fingerprint: string)
    requires |after| == |rows| && UniqueActive(rows) && HasActive(rows, fingerprint)
    requires forall i | 0 <= i < |rows| ::
               after[i] == if ActiveFor(rows[i], fingerprint) then Again(rows[i]) else rows[i]
    ensures Occurrences(after, fingerprint) == Occurrences(rows, fingerprint) + 1
    decreases |rows|
  {
    var last := |rows| - 1;
    if ActiveFor(rows[last], fingerprint) {
      OccurrencesSame(rows[..last], after[..last], fingerprint);
    } else {
      var i :| 0 <= i < |rows| && ActiveFor(rows[i], fingerprint);
      assert rows[..last][i] == rows[i];
      OccurrencesObserved(rows[..last], after[..last], fingerprint);
    }
  }

  lemma OccurrencesInserted(rows: seq<Row>, fingerprint: string, other: string)
    ensures Occurrences(Inserted(rows, fingerprint), other)
            == Occurrences(rows, other) + (if other == fingerprint then 1 else 0)
  {
    assert Inserted(rows, fingerprint)[..|rows|] == rows;
  }

  // ---- What every run keeps ----

  ghost predicate Counted(s: State) {
    forall fingerprint :: Occurrences(s.rows, fingerprint) == s.returned[fingerprint]
  }

  ghost predicate Ok(s: State) { UniqueActive(s.rows) && Counted(s) }

  lemma ObservationKeeps(s: State, c: CallerId, fingerprint: string)
    requires Ok(s) && HasActive(s.rows, fingerprint)
    ensures Ok(Return(s, c, Observed(s.rows, fingerprint), fingerprint))
  {
    var after := Observed(s.rows, fingerprint);
    OccurrencesObserved(s.rows, after, fingerprint);
    forall other | other != fingerprint ensures Occurrences(after, other) == Occurrences(s.rows, other) {
      OccurrencesSame(s.rows, after, other);
    }
  }

  lemma InsertionKeeps(s: State, c: CallerId, fingerprint: string)
    requires Ok(s) && !HasActive(s.rows, fingerprint)
    ensures Ok(Return(s, c, Inserted(s.rows, fingerprint), fingerprint))
  {
    forall other ensures Occurrences(Inserted(s.rows, fingerprint), other)
                         == Occurrences(s.rows, other) + (if other == fingerprint then 1 else 0) {
      OccurrencesInserted(s.rows, fingerprint, other);
    }
  }

  lemma MoveKeeps(s: State, i: Id, to: IncidentStatus)
    requires Ok(s) && i < |s.rows| && to in IncidentEdges(s.rows[i].status)
    ensures Ok(s.(rows := s.rows[i := s.rows[i].(status := to)]))
  {
    var after := s.rows[i := s.rows[i].(status := to)];
    forall fingerprint ensures Occurrences(after, fingerprint) == Occurrences(s.rows, fingerprint) {
      OccurrencesSame(s.rows, after, fingerprint);
    }
    assert ActiveIncident(to) ==> ActiveIncident(s.rows[i].status);
  }

  lemma StepKeeps(s: State, a: Action)
    requires Ok(s) && Step(s, a).Some?
    ensures Ok(Step(s, a).value)
  {
    match a
    case Observe(c, fingerprint) => if HasActive(s.rows, fingerprint) { ObservationKeeps(s, c, fingerprint); }
    case Insert(c) => if !HasActive(s.rows, PcOf(s, c).fingerprint) { InsertionKeeps(s, c, PcOf(s, c).fingerprint); }
    case ObserveAgain(c) => if HasActive(s.rows, PcOf(s, c).fingerprint) { ObservationKeeps(s, c, PcOf(s, c).fingerprint); }
    case Move(i, to) => MoveKeeps(s, i, to);
    case Die(c) =>
  }

  lemma {:induction false} RunKeeps(s: State, trace: seq<Action>)
    requires Ok(s) && Run(s, trace).Some?
    ensures Ok(Run(s, trace).value)
    decreases |trace|
  {
    if trace != [] {
      StepKeeps(s, trace[0]);
      RunKeeps(Step(s, trace[0]).value, trace[1..]);
    }
  }

  /** At most one active incident per fingerprint, however calls and status changes interleave. */
  lemma OneActiveIncident(trace: seq<Action>, i: Id, j: Id)
    requires Run(START, trace).Some?
    requires var rows := Run(START, trace).value.rows;
             i < |rows| && j < |rows| && rows[i].fingerprint == rows[j].fingerprint
             && ActiveIncident(rows[i].status) && ActiveIncident(rows[j].status)
    ensures i == j
  {
    RunKeeps(START, trace);
    var rows := Run(START, trace).value.rows;
    if i < j {
      assert ActiveFor(rows[i], rows[j].fingerprint);
    } else if j < i {
      assert ActiveFor(rows[j], rows[i].fingerprint);
    }
  }

  /** No alert is lost or counted twice: occurrences add up to the calls that returned. */
  lemma OccurrencesCountReturns(trace: seq<Action>, fingerprint: string)
    requires Run(START, trace).Some?
    ensures Occurrences(Run(START, trace).value.rows, fingerprint) == Run(START, trace).value.returned[fingerprint]
  {
    RunKeeps(START, trace);
  }

  /** An incident that is no longer active stays so, and its occurrences no longer change. */
  lemma {:induction false} InactiveRowsRest(s: State, trace: seq<Action>, i: Id)
    requires Run(s, trace).Some? && i < |s.rows| && !ActiveIncident(s.rows[i].status)
    ensures var s' := Run(s, trace).value;
            && i < |s'.rows| && !ActiveIncident(s'.rows[i].status)
            && s'.rows[i].occurrences == s.rows[i].occurrences
    decreases |trace|
  {
    if trace != [] {
      var next := Step(s, trace[0]).value;
      assert i < |next.rows| && !ActiveIncident(next.rows[i].status) && next.rows[i].occurrences == s.rows[i].occurrences;
      InactiveRowsRest(next, trace[1..], i);
    }
  }

  // ---- The operation ----

  /**
   * The incidents table as one API process uses it; other processes act whenever it is between
   * transactions. `own` counts the calls of this process that returned, `returned` those of everybody.
   */
  class IncidentTable {
    var rows: seq<Row>
    ghost var returned: multiset<string>
    ghost var own: multiset<string>

    ghost predicate Valid()
      reads this
    {
      && UniqueActive(rows)
      && forall fingerprint :: Occurrences(rows, fingerprint) == returned[fingerprint]
    }

    /** Rows of `before` that are still there, with their fingerprints. */
    ghost predicate Since(before: seq<Row>)
      reads this
    {
      |before| <= |rows| && forall i | 0 <= i < |before| :: rows[i].fingerprint == before[i].fingerprint
    }

    constructor ()
      ensures Valid() && rows == [] && own == multiset{}
    {
      rows := [];
      returned, own := multiset{}, multiset{};
    }

    /** Anything the others may do in the meantime; nothing is one possibility. */
    method Others()
      requires Valid()
      modifies this
      ensures Valid() && Since(old(rows)) && old(returned) <= returned && own == old(own)
    {
    }

    /** One transaction of `observe_existing`. */
    method ObserveExisting(fingerprint: string) returns (existing: Option<Id>)
      requires Valid()
      modifies this
      ensures Valid()
      ensures existing.None? <==> !HasActive(old(rows), fingerprint)
      ensures existing.Some? ==>
                && existing.value < |rows| && ActiveFor(rows[existing.value], fingerprint)
                && rows == Observed(old(rows), fingerprint)
                && returned == old(returned) + multiset{fingerprint} && own == old(own) + multiset{fingerprint}
      ensures existing.None? ==> rows == old(rows) && returned == old(returned) && own == old(own)
    {
      existing := None;
      var i := 0;
      while i < |rows|
        invariant 0 <= i <= |rows| && |rows| == |old(rows)|
        invariant forall k | 0 <= k < i ::
                    rows[k] == if ActiveFor(old(rows)[k], fingerprint) then Again(old(rows)[k]) else old(rows)[k]
        invariant forall k | i <= k < |rows| :: rows[k] == old(rows)[k]
        invariant existing.None? <==> forall k | 0 <= k < i :: !ActiveFor(old(rows)[k], fingerprint)
        invariant existing.Some? ==> existing.value < i && ActiveFor(rows[existing.value], fingerprint)
        invariant returned == old(returned) && own == old(own)
      {
        if ActiveFor(rows[i], fingerprint) {
          rows := rows[i := rows[i].(occurrences := rows[i].occurrences + 1)];
          existing := Some(i);
        }
        i := i + 1;
      }
      if existing.Some? {
        assert rows == Observed(old(rows), fingerprint);
        ObservationKeeps(State(old(rows), map[], old(returned)), 0, fingerprint);
        returned, own := returned + multiset{fingerprint}, own + multiset{fingerprint};
      } else {
        assert rows == old(rows);
      }
    }

    /** One transaction of the insert; None when the unique index refuses it. */
    method InsertIncident(fingerprint: string) returns (created: Option<Id>)
      requires Valid()
      modifies this
      ensures Valid()
      ensures created.None? <==> HasActive(old(rows), fingerprint)
      ensures created.Some? ==>
                && created.value == |old(rows)| && rows == old(rows) + [Row(fingerprint, Open, 1)]
                && returned == old(returned) + multiset{fingerprint} && own == old(own) + multiset{fingerprint}
      ensures created.None? ==> rows == old(rows) && returned == old(returned) && own == old(own)
    {
      if HasActive(rows, fingerprint) {
        return None;
      }
      InsertionKeeps(State(rows, map[], returned), 0, fingerprint);
      created := Some(|rows|);
      rows := Inserted(rows, fingerprint);
      returned, own := returned + multiset{fingerprint}, own + multiset{fingerprint};
    }

    /**
     * `create_incident`: a call that returns was itself counted, once; it raises only after losing the insert
     * to an incident that was no longer active when it looked again.
     */
    method CreateIncident(fingerprint: string) returns (incident: Option<Id>, created: bool)
      requires Valid()
      modifies this
      ensures Valid() && Since(old(rows)) && old(returned) <= returned
      ensures incident.Some? ==> incident.value < |rows| && ActiveFor(rows[incident.value], fingerprint)
      ensures own == if incident.Some? then old(own) + multiset{fingerprint} else old(own)
      ensures created ==> incident.Some? && incident.value >= |old(rows)|
      ensures created ==> rows[incident.value] == Row(fingerprint, Open, 1)
      ensures incident.Some? && !created ==> rows[incident.value].occurrences >= 1
      ensures incident.None? ==> !HasActive(rows, fingerprint)
    {
      incident := ObserveExisting(fingerprint);
      if incident.Some? {
        return incident, false;
      }
      Others();
      incident := InsertIncident(fingerprint);
      if incident.Some? {
        return incident, true;
      }
      Others();
      incident := ObserveExisting(fingerprint);
      return incident, false;
    }
  }
}
