/**
 * The transactional outbox (app/ops_agent/outbox.py) and the job queue it feeds
 * (app/ops_agent/queueing.py): events are handed to a queue that is not part of the database
 * transaction, under a job id that is the event's own.
 */
module Outbox {
  import opened Common

  type Id = nat

  datatype EventStatus = Pending | Published | Failed

  datatype Topic = AgentRunRequested | ExecutionRequested | OtherTopic

  /** An outbox row; `subject` is the id its payload carries under the key of its topic, if any. */
  datatype Event = Event(
    topic: Topic, subject: Option<Id>, status: EventStatus, attempts: nat, availableAt: int, createdAt: int)

  const MAX_ATTEMPTS := 8
  const BATCH_SIZE := 50

  /** The queue: job ids it remembers, and as history every job it was given. */
  datatype Queue = Queue(remembered: set<Id>, added: multiset<Id>)

  /** The rows (ids are positions) and the queue. */
  datatype State = State(events: seq<Event>, queue: Queue)

  /** What the queue does with one request: the lookup of the job may raise, or the insert before or after taking it. */
  datatype Fault = NoFault | LookupRaises | RaisesBefore | RaisesAfter

  datatype Counts = Counts(published: nat, failed: nat)

  // ---- Enqueueing ----

  /** Whether `enqueue_diagnosis` or `enqueue_execution`, called with a job id, returns. */
  predicate Returns(q: Queue, job: Id, fault: Fault) {
    !fault.LookupRaises? && (job in q.remembered || fault.NoFault?)
  }

  /** The queue afterwards. */
  function Enqueue(q: Queue, job: Id, fault: Fault): Queue {
    if fault.LookupRaises? || job in q.remembered || fault.RaisesBefore? then q
    else Queue(q.remembered + {job}, q.added + multiset{job})
  }

  /** Whether the payload allows the event to be enqueued at all. */
  predicate Deliverable(e: Event) { !e.topic.OtherTopic? && e.subject.Some? }

  function Pow2(n: nat): nat { if n == 0 then 1 else 2 * Pow2(n - 1) }

  /** A failed delivery: one more attempt, then a longer wait or the end. */
  function Refused(e: Event, now: int): Event {
    var attempts := e.attempts + 1;
    if attempts >= MAX_ATTEMPTS then e.(attempts := attempts, status := Failed)
    else e.(attempts := attempts, availableAt := now + Min(300, Pow2(attempts)))
  }

  /** Whether the event of a batch is delivered. */
  predicate Delivers(s: State, id: Id, fault: Fault)
    requires id < |s.events|
  {
    Deliverable(s.events[id]) && Returns(s.queue, id, fault)
  }

  /** One event of the batch. */
  function Deliver(s: State, id: Id, fault: Fault, now: int): State
    requires id < |s.events|
  {
    var e := s.events[id];
    State(s.events[id := if Delivers(s, id, fault) then e.(status := Published) else Refused(e, now)],
          if Deliverable(e) then Enqueue(s.queue, id, fault) else s.queue)
  }

  predicate Below(ids: seq<Id>, n: nat) { forall k | 0 <= k < |ids| :: ids[k] < n }

  /** The first `n` events of the batch. */
  function Dispatched(s: State, batch: seq<Id>, faults: seq<Fault>, n: nat, now: int): (r: State)
    requires Below(batch, |s.events|) && |faults| == |batch| && n <= |batch|
    ensures |r.events| == |s.events|
  {
    if n == 0 then s else Deliver(Dispatched(s, batch, faults, n - 1, now), batch[n - 1], faults[n - 1], now)
  }

  /** How many of them were published and how many failed. */
  function CountsOf(s: State, batch: seq<Id>, faults: seq<Fault>, n: nat, now: int): Counts
    requires Below(batch, |s.events|) && |faults| == |batch| && n <= |batch|
  {
    if n == 0 then Counts(0, 0)
    else
      var c := CountsOf(s, batch, faults, n - 1, now);
      if Delivers(Dispatched(s, batch, faults, n - 1, now), batch[n - 1], faults[n - 1])
      then c.(published := c.published + 1) else c.(failed := c.failed + 1)
  }

  // ---- What becomes of one event ----

  /** The queue has the job: the payload names one, the lookup works, and it is remembered or inserted. */
  predicate Taken(e: Event, remembered: bool, fault: Fault) {
    && e.topic in {AgentRunRequested, ExecutionRequested} && e.subject.Some?
    && fault != LookupRaises && (remembered || fault == NoFault)
  }

  /** The insert went through, whether or not the caller was told. */
  predicate Inserted(e: Event, fault: Fault) {
    e.topic in {AgentRunRequested, ExecutionRequested} && e.subject.Some? && fault in {NoFault, RaisesAfter}
  }

  /** The seconds until the next attempt, after this many. */
  const WAITS := [2, 4, 8, 16, 32, 64, 128]

  /**
   * A taken event is published; any other has one more attempt and waits for twice as long as before, until
   * the eighth, which fails it.
   */
  predicate Becomes(e: Event, e': Event, taken: bool, now: int) {
    if taken then e' == e.(status := Published)
    else
      && e'.attempts == e.attempts + 1
      && (e'.attempts < 8 ==> e' == e.(attempts := e'.attempts, availableAt := now + WAITS[e.attempts]))
      && (e'.attempts >= 8 ==> e' == e.(attempts := e'.attempts, status := Failed))
  }

  lemma WaitsDouble(n: nat)
    requires 1 <= n <= 7
    ensures Min(300, Pow2(n)) == WAITS[n - 1]
  {
    assert Pow2(0) == 1 && Pow2(1) == 2 && Pow2(2) == 4 && Pow2(3) == 8;
    assert Pow2(4) == 16 && Pow2(5) == 32 && Pow2(6) == 64 && Pow2(7) == 128;
  }

  lemma DeliverBecomes(s: State, id: Id, fault: Fault, now: int)
    requires id < |s.events|
    ensures var s', taken := Deliver(s, id, fault, now), Taken(s.events[id], id in s.queue.remembered, fault);
            && Becomes(s.events[id], s'.events[id], taken, now) && (taken <==> Delivers(s, id, fault))
            && (forall x | 0 <= x < |s.events| && x != id :: s'.events[x] == s.events[x])
            && (forall x | x != id :: x in s'.queue.remembered <==> x in s.queue.remembered)
            && (id in s'.queue.remembered <==> id in s.queue.remembered || Inserted(s.events[id], fault))
  {
    if s.events[id].attempts < 7 {
      WaitsDouble(s.events[id].attempts + 1);
    }
  }

  predicate Distinct(batch: seq<Id>) { forall j, k | 0 <= j < k < |batch| :: batch[j] != batch[k] }

  /** An event the batch has not reached is as it was, and so is what the queue knows of it. */
  lemma {:induction false} NotReached(s: State, batch: seq<Id>, faults: seq<Fault>, n: nat, now: int, id: Id)
    requires Below(batch, |s.events|) && |faults| == |batch| && n <= |batch| && id !in batch[..n]
    ensures var s' := Dispatched(s, batch, faults, n, now);
            && (id < |s.events| ==> s'.events[id] == s.events[id])
            && (id in s'.queue.remembered <==> id in s.queue.remembered)
  {
    if n > 0 {
      assert batch[..n] == batch[..n - 1] + [batch[n - 1]];
      NotReached(s, batch, faults, n - 1, now, id);
      DeliverBecomes(Dispatched(s, batch, faults, n - 1, now), batch[n - 1], faults[n - 1], now);
    }
  }

  /** Every event of the batch becomes what its own payload, its job and its fault make of it. */
  lemma {:induction false} BatchBecomes(s: State, batch: seq<Id>, faults: seq<Fault>, n: nat, now: int, k: nat)
    requires Below(batch, |s.events|) && |faults| == |batch| && k < n <= |batch| && Distinct(batch)
    ensures Becomes(s.events[batch[k]], Dispatched(s, batch, faults, n, now).events[batch[k]],
                    Taken(s.events[batch[k]], batch[k] in s.queue.remembered, faults[k]), now)
  {
    var before := Dispatched(s, batch, faults, n - 1, now);
    DeliverBecomes(before, batch[n - 1], faults[n - 1], now);
    if k == n - 1 {
      assert batch[k] !in batch[..n - 1];
      NotReached(s, batch, faults, n - 1, now, batch[k]);
    } else {
      BatchBecomes(s, batch, faults, n - 1, now, k);
    }
  }

  /** How many of the first `n` are taken. */
  function TakenOf(s: State, batch: seq<Id>, faults: seq<Fault>, n: nat): nat
    requires Below(batch, |s.events|) && |faults| == |batch| && n <= |batch|
  {
    if n == 0 then 0
    else
      TakenOf(s, batch, faults, n - 1)
      + (if Taken(s.events[batch[n - 1]], batch[n - 1] in s.queue.remembered, faults[n - 1]) then 1 else 0)
  }

  /** The counts are those of taken and other events. */
  lemma {:induction false} CountsAreTaken(s: State, batch: seq<Id>, faults: seq<Fault>, n: nat, now: int)
    requires Below(batch, |s.events|) && |faults| == |batch| && n <= |batch| && Distinct(batch)
    ensures var c := CountsOf(s, batch, faults, n, now);
            c.published == TakenOf(s, batch, faults, n) && c.published + c.failed == n
  {
    if n > 0 {
      CountsAreTaken(s, batch, faults, n - 1, now);
      assert batch[n - 1] !in batch[..n - 1];
      NotReached(s, batch, faults, n - 1, now, batch[n - 1]);
      DeliverBecomes(Dispatched(s, batch, faults, n - 1, now), batch[n - 1], faults[n - 1], now);
    }
  }

  /** What a batch leaves: each of its events settled or waiting, the others as they were, and all of them counted. */
  ghost predicate BatchDone(s: State, events: seq<Event>, c: Counts, batch: seq<Id>, faults: seq<Fault>, now: int)
    requires Below(batch, |s.events|) && |faults| == |batch|
  {
    && |events| == |s.events| && c.published == TakenOf(s, batch, faults, |batch|) && c.published + c.failed == |batch|
    && (forall k | 0 <= k < |batch| ::
          Becomes(s.events[batch[k]], events[batch[k]],
                  Taken(s.events[batch[k]], batch[k] in s.queue.remembered, faults[k]), now))
    && (forall id | 0 <= id < |s.events| && id !in batch :: events[id] == s.events[id])
  }

  lemma BatchIsDone(s: State, batch: seq<Id>, faults: seq<Fault>, now: int)
    requires Below(batch, |s.events|) && |faults| == |batch| && Distinct(batch)
    ensures BatchDone(s, Dispatched(s, batch, faults, |batch|, now).events,
                      CountsOf(s, batch, faults, |batch|, now), batch, faults, now)
  {
    var s' := Dispatched(s, batch, faults, |batch|, now);
    CountsAreTaken(s, batch, faults, |batch|, now);
    forall k | 0 <= k < |batch|
      ensures Becomes(s.events[batch[k]], s'.events[batch[k]],
                      Taken(s.events[batch[k]], batch[k] in s.queue.remembered, faults[k]), now)
    {
      BatchBecomes(s, batch, faults, |batch|, now, k);
    }
    assert batch[..|batch|] == batch;
    forall id | 0 <= id < |s.events| && id !in batch ensures s'.events[id] == s.events[id] {
      NotReached(s, batch, faults, |batch|, now, id);
    }
  }

  // ---- The batch query ----

  predicate Due(e: Event, now: int) { e.status.Pending? && e.availableAt <= now }

  /** The query's result: due, unlocked, oldest first, at most BATCH_SIZE, and as many as there are. */
  predicate Selected(events: seq<Event>, batch: seq<Id>, locked: set<Id>, now: int) {
    && |batch| <= BATCH_SIZE
    && (forall k | 0 <= k < |batch| :: batch[k] < |events| && Due(events[batch[k]], now) && batch[k] !in locked)
    && (forall j, k | 0 <= j < k < |batch| ::
          batch[j] != batch[k] && events[batch[j]].createdAt <= events[batch[k]].createdAt)
    && (forall id | 0 <= id < |events| && Due(events[id], now) && id !in locked && id !in batch ::
          |batch| == BATCH_SIZE && forall k | 0 <= k < |batch| :: events[batch[k]].createdAt <= events[id].createdAt)
  }

  // ---- The dispatcher object ----

  /** A dispatcher with its database session and its connection to the queue. */
  class Dispatcher {
    var events: seq<Event>
    var remembered: set<Id>
    ghost var added: multiset<Id>

    ghost function Contents(): State
      reads this
    {
      State(events, Queue(remembered, added))
    }

    constructor ()
      ensures Contents() == State([], Queue({}, multiset{}))
    {
      events := [];
      remembered := {};
      added := multiset{};
    }

    /** `enqueue_diagnosis` and `enqueue_execution`. */
    method EnqueueJob(job: Id, fault: Fault) returns (returned: bool)
      modifies this`remembered, this`added
      ensures returned == Returns(old(Queue(remembered, added)), job, fault)
      ensures Queue(remembered, added) == Enqueue(old(Queue(remembered, added)), job, fault)
    {
      if fault.LookupRaises? {
        return false;
      }
      if job in remembered {
        return true;
      }
      if fault.RaisesBefore? {
        return false;
      }
      remembered := remembered + {job};
      added := added + multiset{job};
      return fault.NoFault?;
    }

    /** The exception branch of one event. */
    method Refuse(event: Event, now: int) returns (e: Event)
      ensures e == Refused(event, now)
    {
      e := event.(attempts := event.attempts + 1);
      if e.attempts >= MAX_ATTEMPTS {
        e := e.(status := Failed);
      } else {
        e := e.(availableAt := now + Min(300, Pow2(e.attempts)));
      }
    }

    /**
     * `dispatch_pending_once`. With `crash` the process dies after that many events, before the
     * commit: the rows are rolled back, the queue is not.
     */
    method DispatchPendingOnce(batch: seq<Id>, faults: seq<Fault>, locked: set<Id>, now: int, crash: Option<nat>)
      returns (result: Counts)
      requires Selected(events, batch, locked, now) && |faults| == |batch|
      requires crash.Some? ==> crash.value <= |batch|
      modifies this
      ensures var n := if crash.Some? then crash.value else |batch|;
              var reached := Dispatched(old(Contents()), batch, faults, n, now);
              && Queue(remembered, added) == reached.queue
              && events == (if crash.Some? then old(events) else reached.events)
              && result == CountsOf(old(Contents()), batch, faults, n, now)
      ensures crash.None? ==> BatchDone(old(Contents()), events, result, batch, faults, now)
    {
      var session := events;
      result := Counts(0, 0);
      var k, n := 0, if crash.Some? then crash.value else |batch|;
      while k < n
        invariant 0 <= k <= n
        invariant |session| == |events| && events == old(events)
        invariant State(session, Queue(remembered, added)) == Dispatched(old(Contents()), batch, faults, k, now)
        invariant result == CountsOf(old(Contents()), batch, faults, k, now)
      {
        var id := batch[k];
        var e := session[id];
        var published := false;
        if Deliverable(e) {
          published := EnqueueJob(id, faults[k]);
        }
        if published {
          session := session[id := e.(status := Published)];
          result := result.(published := result.published + 1);
        } else {
          var refused := Refuse(e, now);
          session := session[id := refused];
          result := result.(failed := result.failed + 1);
        }
        k := k + 1;
      }
      if crash.None? {
        events := session;
        BatchIsDone(old(Contents()), batch, faults, now);
      }
    }
  }

  // ---- Runs ----

  datatype Action =
    | Submit(event: Event)
    | Dispatch(batch: seq<Id>, faults: seq<Fault>, locked: set<Id>, now: int, crash: Option<nat>)
    | Forget(job: Id)

  /** The state with the number of times each job was forgotten. */
  datatype Trail = Trail(state: State, forgotten: multiset<Id>)

  predicate NewEvent(e: Event) { e.status.Pending? && e.attempts == 0 }

  function Step(t: Trail, a: Action): Option<Trail> {
    var s := t.state;
    match a
    case Submit(e) => if NewEvent(e) then Some(t.(state := s.(events := s.events + [e]))) else None
    case Dispatch(batch, faults, locked, now, crash) =>
      if !Selected(s.events, batch, locked, now) || |faults| != |batch| || (crash.Some? && crash.value > |batch|) then None
      else
        var reached := Dispatched(s, batch, faults, if crash.Some? then crash.value else |batch|, now);
        Some(t.(state := if crash.Some? then s.(queue := reached.queue) else reached))
    case Forget(job) =>
      if job !in s.queue.remembered then None
      else Some(Trail(s.(queue := s.queue.(remembered := s.queue.remembered - {job})), t.forgotten + multiset{job}))
  }

  function Run(t: Trail, trace: seq<Action>): Option<Trail>
    decreases |trace|
  {
    if trace == [] then Some(t)
    else
      match Step(t, trace[0])
      case None => None
      case Some(t') => Run(t', trace[1..])
  }

  const START := Trail(State([], Queue({}, multiset{})), multiset{})

  // ---- What every run keeps ----

  /** A job was added once for every time it was forgotten, and once more while it is remembered. */
  ghost predicate JobsCounted(q: Queue, forgotten: multiset<Id>) {
    forall id: Id :: q.added[id] == forgotten[id] + (if id in q.remembered then 1 else 0)
  }

  /**
   * Only deliverable events become jobs; published events did; an event has FAILED exactly when its
   * attempts are used up.
   */
  predicate JobOk(s: State, id: Id) {
    && (id in s.queue.remembered ==> id in s.queue.added)
    && (id in s.queue.added ==> id < |s.events| && Deliverable(s.events[id]))
    && (id < |s.events| ==>
          var e := s.events[id];
          && e.attempts <= MAX_ATTEMPTS
          && (e.status.Failed? <==> e.attempts == MAX_ATTEMPTS)
          && (e.status.Published? ==> id in s.queue.added && Deliverable(e)))
  }

  ghost predicate Jobs(s: State) { forall id :: JobOk(s, id) }

  ghost predicate Ok(t: Trail) { JobsCounted(t.state.queue, t.forgotten) && Jobs(t.state) }

  lemma DeliverCounts(s: State, id: Id, fault: Fault, now: int, forgotten: multiset<Id>)
    requires JobsCounted(s.queue, forgotten) && id < |s.events|
    ensures JobsCounted(Deliver(s, id, fault, now).queue, forgotten)
  {
  }

  lemma DeliverKeepsJobs(s: State, id: Id, fault: Fault, now: int)
    requires Jobs(s) && id < |s.events| && s.events[id].status.Pending?
    ensures Jobs(Deliver(s, id, fault, now))
  {
    forall x ensures JobOk(Deliver(s, id, fault, now), x) {
      assert JobOk(s, x);
    }
  }

  lemma DeliverShape(s: State, id: Id, fault: Fault, now: int)
    requires id < |s.events|
    ensures var s' := Deliver(s, id, fault, now);
            && |s'.events| == |s.events| && s'.events == s.events[id := s'.events[id]]
            && s.queue.added <= s'.queue.added
  {
  }

  /** Only the events reached have changed. */
  lemma {:induction false} DispatchedShape(s: State, batch: seq<Id>, faults: seq<Fault>, n: nat, now: int)
    requires Below(batch, |s.events|) && |faults| == |batch| && n <= |batch|
    ensures var s' := Dispatched(s, batch, faults, n, now);
            && |s'.events| == |s.events| && s.queue.added <= s'.queue.added
            && forall id | 0 <= id < |s.events| && id !in batch[..n] :: s'.events[id] == s.events[id]
  {
    if n > 0 {
      DispatchedShape(s, batch, faults, n - 1, now);
      DeliverShape(Dispatched(s, batch, faults, n - 1, now), batch[n - 1], faults[n - 1], now);
      assert batch[..n] == batch[..n - 1] + [batch[n - 1]];
    }
  }

  lemma {:induction false} DispatchedCounts(
    s: State, batch: seq<Id>, faults: seq<Fault>, n: nat, now: int, forgotten: multiset<Id>)
    requires JobsCounted(s.queue, forgotten)
    requires Below(batch, |s.events|) && |faults| == |batch| && n <= |batch|
    ensures JobsCounted(Dispatched(s, batch, faults, n, now).queue, forgotten)
  {
    if n > 0 {
      DispatchedCounts(s, batch, faults, n - 1, now, forgotten);
      DeliverCounts(Dispatched(s, batch, faults, n - 1, now), batch[n - 1], faults[n - 1], now, forgotten);
    }
  }

  lemma StillPending(s: State, before: State, batch: seq<Id>, n: nat)
    requires Below(batch, |s.events|) && 0 < n <= |batch| && |before.events| == |s.events|
    requires forall j, k | 0 <= j < k < |batch| :: batch[j] != batch[k]
    requires forall id | 0 <= id < |s.events| && id !in batch[..n - 1] :: before.events[id] == s.events[id]
    ensures before.events[batch[n - 1]] == s.events[batch[n - 1]]
  {
    assert batch[n - 1] !in batch[..n - 1];
  }

  lemma {:induction false} DispatchedKeepsJobs(
    s: State, batch: seq<Id>, faults: seq<Fault>, n: nat, now: int)
    requires Jobs(s)
    requires Below(batch, |s.events|) && |faults| == |batch| && n <= |batch|
    requires forall k | 0 <= k < |batch| :: s.events[batch[k]].status.Pending?
    requires forall j, k | 0 <= j < k < |batch| :: batch[j] != batch[k]
    ensures Jobs(Dispatched(s, batch, faults, n, now))
  {
    if n > 0 {
      var before := Dispatched(s, batch, faults, n - 1, now);
      DispatchedKeepsJobs(s, batch, faults, n - 1, now);
      DispatchedShape(s, batch, faults, n - 1, now);
      StillPending(s, before, batch, n);
      DeliverKeepsJobs(before, batch[n - 1], faults[n - 1], now);
    }
  }

  /** After a crash the rows are the old ones, the queue the new one. */
  lemma CrashKeeps(s: State, reached: State)
    requires Jobs(s) && Jobs(reached) && s.queue.added <= reached.queue.added && |reached.events| == |s.events|
    requires forall id | 0 <= id < |s.events| :: Deliverable(reached.events[id]) == Deliverable(s.events[id])
    ensures Jobs(s.(queue := reached.queue))
  {
    forall id ensures JobOk(s.(queue := reached.queue), id) {
      assert JobOk(s, id) && JobOk(reached, id);
    }
  }

  lemma {:induction false} DeliverableStays(s: State, batch: seq<Id>, faults: seq<Fault>, n: nat, now: int)
    requires Below(batch, |s.events|) && |faults| == |batch| && n <= |batch|
    ensures var s' := Dispatched(s, batch, faults, n, now);
            forall id | 0 <= id < |s.events| :: Deliverable(s'.events[id]) == Deliverable(s.events[id])
  {
    if n > 0 {
      DeliverableStays(s, batch, faults, n - 1, now);
    }
  }

  lemma StepKeeps(t: Trail, a: Action)
    requires Ok(t) && Step(t, a).Some?
    ensures Ok(Step(t, a).value)
  {
    match a
    case Submit(e) =>
      forall id ensures JobOk(Step(t, a).value.state, id) {
        assert JobOk(t.state, id);
      }
    case Forget(job) =>
      forall id ensures JobOk(Step(t, a).value.state, id) {
        assert JobOk(t.state, id);
      }
    case Dispatch(batch, faults, locked, now, crash) =>
      var n := if crash.Some? then crash.value else |batch|;
      DispatchedCounts(t.state, batch, faults, n, now, t.forgotten);
      DispatchedKeepsJobs(t.state, batch, faults, n, now);
      DispatchedShape(t.state, batch, faults, n, now);
      DeliverableStays(t.state, batch, faults, n, now);
      CrashKeeps(t.state, Dispatched(t.state, batch, faults, n, now));
  }

  lemma {:induction false} RunKeeps(t: Trail, trace: seq<Action>)
    requires Ok(t) && Run(t, trace).Some?
    ensures Ok(Run(t, trace).value)
    decreases |trace|
  {
    if trace != [] {
      StepKeeps(t, trace[0]);
      RunKeeps(Step(t, trace[0]).value, trace[1..]);
    }
  }

  /**
   * Whatever crashes between enqueue and commit, an event is enqueued once, plus once for every time
   * the queue forgot its job; while it is remembered, exactly once more than it was forgotten.
   */
  lemma OneJobPerEventWhileRemembered(trace: seq<Action>, id: Id)
    requires Run(START, trace).Some?
    ensures var t := Run(START, trace).value;
            && t.state.queue.added[id] <= 1 + t.forgotten[id]
            && (t.forgotten[id] == 0 ==> t.state.queue.added[id] <= 1)
  {
    RunKeeps(START, trace);
  }

  /** A published event was handed to the queue; an event fails exactly after its eighth attempt. */
  lemma PublishedWasEnqueued(trace: seq<Action>, id: Id)
    requires Run(START, trace).Some? && id < |Run(START, trace).value.state.events|
    ensures var s := Run(START, trace).value.state;
            && (s.events[id].status.Published? ==> id in s.queue.added)
            && s.events[id].attempts <= MAX_ATTEMPTS
            && (s.events[id].status.Failed? <==> s.events[id].attempts == MAX_ATTEMPTS)
            && (!Deliverable(s.events[id]) ==> id !in s.queue.added)
  {
    RunKeeps(START, trace);
    assert JobOk(Run(START, trace).value.state, id);
  }

  lemma SettledEventKept(t: Trail, a: Action, id: Id)
    requires Ok(t) && Step(t, a).Some?
    requires id < |t.state.events| && !t.state.events[id].status.Pending?
    ensures var s' := Step(t, a).value.state;
            id < |s'.events| && s'.events[id] == t.state.events[id] && s'.queue.added[id] == t.state.queue.added[id]
  {
    if a.Dispatch? {
      var n := if a.crash.Some? then a.crash.value else |a.batch|;
      DispatchedShape(t.state, a.batch, a.faults, n, a.now);
      OthersNotAdded(t.state, a.batch, a.faults, n, a.now, id);
      assert id !in a.batch[..n];
    }
  }

  /** An event that is no longer pending is never touched or delivered again. */
  lemma {:induction false} SettledEventsStay(t: Trail, trace: seq<Action>, id: Id)
    requires Ok(t) && Run(t, trace).Some?
    requires id < |t.state.events| && !t.state.events[id].status.Pending?
    ensures var s' := Run(t, trace).value.state;
            id < |s'.events| && s'.events[id] == t.state.events[id] && s'.queue.added[id] == t.state.queue.added[id]
    decreases |trace|
  {
    if trace != [] {
      SettledEventKept(t, trace[0], id);
      StepKeeps(t, trace[0]);
      SettledEventsStay(Step(t, trace[0]).value, trace[1..], id);
    }
  }

  lemma {:induction false} OthersNotAdded(s: State, batch: seq<Id>, faults: seq<Fault>, n: nat, now: int, id: Id)
    requires Below(batch, |s.events|) && |faults| == |batch| && n <= |batch| && id !in batch
    ensures Dispatched(s, batch, faults, n, now).queue.added[id] == s.queue.added[id]
  {
    if n > 0 {
      OthersNotAdded(s, batch, faults, n - 1, now, id);
      assert batch[n - 1] in batch;
    }
  }
}
