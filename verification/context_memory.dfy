/**
 * Evidence items, working memory and greedy selection (app/ops_agent/context_memory.py), as values.
 * The in-place selection over a context object is in module ContextPacking.
 */
module ContextMemory {
  import opened Common
  import opened GreedyChoice

  type Id = string
  type Content = map<string, Json>

  datatype EvidenceType =
    | AlertPayload | PodStatus | CurrentLogs | PreviousLogs | K8sEvents
    | WorkloadStatus | ResourceLimits | PrometheusMetrics | RedisStatus | CollectionError

  /** A persisted Evidence row; times are integers, `resource_uid` values are JSON (JNull: absent). */
  datatype Evidence = Evidence(
    id: Id,
    runId: Id,
    kind: EvidenceType,
    source: string,
    content: Content,
    collectedAt: Option<int>,
    expiresAt: Option<int>)

  datatype Freshness = Fresh | Stale | UnknownAge

  datatype UidStatus = Matched | Mismatch | UnknownUid

  datatype Item = Item(
    id: Id,
    kind: EvidenceType,
    source: string,
    collectedAt: Option<string>,
    uid: Json,
    uidStatus: UidStatus,
    freshness: Freshness,
    truncated: bool,
    content: Content)

  /** The text functions an item is built with, and the effective time-to-live table. */
  datatype ItemRules = ItemRules(
    clean: Content -> Content,
    limit: Content -> Content,
    isoformat: int -> string,
    ttls: map<EvidenceType, int>)

  const DEFAULT_TTL := 120

  function UidOf(content: Content): Json {
    if Has(content, "uid") then content["uid"]
    else if "resource_uid" in content then content["resource_uid"]
    else JNull
  }

  function UidStatusOf(uid: Json, expected: Json): UidStatus {
    if Truthy(uid) && Truthy(expected) then (if uid != expected then Mismatch else Matched)
    else UnknownUid
  }

  function FreshnessOf(e: Evidence, now: int, ttls: map<EvidenceType, int>): Freshness {
    if e.expiresAt.Some? && now >= e.expiresAt.value then Stale
    else if e.collectedAt.None? || now < e.collectedAt.value then UnknownAge
    else if now - e.collectedAt.value > (if e.kind in ttls then ttls[e.kind] else DEFAULT_TTL) then Stale
    else Fresh
  }

  // ---- Freshness and uid on the columns ----

  function TimeToLive(kind: EvidenceType, ttls: map<EvidenceType, int>): int {
    if kind in ttls then ttls[kind] else 120
  }

  /** Collected at most its time to live ago, and not expired. */
  predicate Recent(e: Evidence, now: int, ttls: map<EvidenceType, int>) {
    && e.collectedAt.Some? && 0 <= now - e.collectedAt.value <= TimeToLive(e.kind, ttls)
    && (e.expiresAt.Some? ==> now < e.expiresAt.value)
  }

  /** Expired, or collected longer ago than its time to live. */
  predicate Outdated(e: Evidence, now: int, ttls: map<EvidenceType, int>) {
    || (e.expiresAt.Some? && e.expiresAt.value <= now)
    || (e.collectedAt.Some? && e.collectedAt.value <= now
        && e.collectedAt.value + TimeToLive(e.kind, ttls) < now)
  }

  /** A row is fresh exactly when it is recent, and stale exactly when it is outdated. */
  lemma FreshIffRecent(e: Evidence, now: int, ttls: map<EvidenceType, int>)
    ensures FreshnessOf(e, now, ttls).Fresh? <==> Recent(e, now, ttls)
    ensures FreshnessOf(e, now, ttls).Stale? <==> Outdated(e, now, ttls)
    ensures !(Recent(e, now, ttls) && Outdated(e, now, ttls))
  {
  }

  /** What is stale never becomes fresh again. */
  lemma StaleStays(e: Evidence, now: int, later: int, ttls: map<EvidenceType, int>)
    requires now <= later && FreshnessOf(e, now, ttls).Stale?
    ensures FreshnessOf(e, later, ttls).Stale?
  {
  }

  /** The uid a row reports: its `uid` if there is one that says something, else its `resource_uid`. */
  predicate Reports(content: Content, uid: Json) {
    Truthy(uid) && Some(uid) == if Has(content, "uid") then Get(content, "uid") else Get(content, "resource_uid")
  }

  ghost predicate OfOtherUid(content: Content, bound: Json) {
    Truthy(bound) && exists uid :: Reports(content, uid) && uid != bound
  }

  /** A row is of another uid, or of the bound one, exactly when both are known and differ, or are the same. */
  lemma UidStatusIff(content: Content, bound: Json)
    ensures UidStatusOf(UidOf(content), bound).Mismatch? <==> OfOtherUid(content, bound)
    ensures UidStatusOf(UidOf(content), bound).Matched? <==> Truthy(bound) && Reports(content, bound)
  {
    if UidStatusOf(UidOf(content), bound).Mismatch? {
      assert Reports(content, UidOf(content));
    }
  }

  /** `evidence_item`. */
  function EvidenceItem(e: Evidence, expected: Json, now: int, rules: ItemRules): Item {
    var clean := rules.clean(e.content);
    var content := rules.limit(clean);
    Item(e.id, e.kind, e.source,
         if e.collectedAt.Some? then Some(rules.isoformat(e.collectedAt.value)) else None,
         UidOf(e.content), UidStatusOf(UidOf(e.content), expected), FreshnessOf(e, now, rules.ttls),
         clean != e.content || Has(content, "truncated"), content)
  }

  /** The item of a row: its own id, type, source and uid, its cleaned content within the limit, and its marks. */
  lemma ItemShows(e: Evidence, expected: Json, now: int, rules: ItemRules)
    ensures var item := EvidenceItem(e, expected, now, rules);
            && item.id == e.id && item.kind == e.kind && item.source == e.source
            && item.content == rules.limit(rules.clean(e.content))
            && (item.truncated <==> rules.clean(e.content) != e.content || Has(item.content, "truncated"))
            && (item.collectedAt.Some? <==> e.collectedAt.Some?)
            && (e.collectedAt.Some? ==> item.collectedAt == Some(rules.isoformat(e.collectedAt.value)))
            && (forall uid | Truthy(uid) :: item.uid == uid <==> Reports(e.content, uid))
            && (item.freshness == Fresh <==> Recent(e, now, rules.ttls))
            && (item.freshness == Stale <==> Outdated(e, now, rules.ttls))
            && (item.uidStatus == Mismatch <==> OfOtherUid(e.content, expected))
            && (item.uidStatus == Matched <==> Truthy(expected) && Reports(e.content, expected))
  {
    FreshIffRecent(e, now, rules.ttls);
    UidStatusIff(e.content, expected);
  }

  // ---- Working memory ----

  /** What working memory reads of an AgentStep. */
  datatype StepNote = StepNote(summary: string, evidenceIds: seq<Id>, failure: Option<Failure>)

  datatype Failure = Failure(tool: string, reason: string)

  datatype Confirmed = Confirmed(observation: Content, evidenceIds: seq<Id>)

  datatype Hypothesis = Hypothesis(claim: string, evidenceIds: seq<Id>)

  datatype Memory = Memory(
    confirmed: seq<Confirmed>,
    hypotheses: seq<Hypothesis>,
    failed: seq<Failure>,
    missing: seq<string>)

  const OBSERVED_FIELDS := {"phase", "exists", "ready", "containers", "desired_replicas", "ready_replicas"}

  function Observation(content: Content): Content {
    map key | key in OBSERVED_FIELDS && key in content :: content[key]
  }

  predicate Current(item: Item) { item.freshness.Fresh? && !item.uidStatus.Mismatch? }

  function ConfirmedOf(items: seq<Item>): (c: seq<Confirmed>)
    ensures |c| <= |items|
  {
    if items == [] then []
    else
      var observation := Observation(items[0].content);
      (if Current(items[0]) && observation != map[] then [Confirmed(observation, [items[0].id])] else [])
      + ConfirmedOf(items[1..])
  }

  function Ids(items: seq<Item>): (ids: seq<Id>)
    ensures |ids| == |items|
    ensures forall i | 0 <= i < |items| :: ids[i] == items[i].id
  {
    seq(|items|, i requires 0 <= i < |items| => items[i].id)
  }

  function LastThree<T>(s: seq<T>): seq<T> { if |s| <= 3 then s else s[|s| - 3..] }

  predicate CitesOnly(cited: seq<Id>, ids: seq<Id>) { forall id | id in cited :: id in ids }

  function HypothesesOf(steps: seq<StepNote>, ids: seq<Id>): seq<Hypothesis> {
    if steps == [] then []
    else
      (if steps[0].summary != "" && CitesOnly(steps[0].evidenceIds, ids)
       then [Hypothesis(steps[0].summary, steps[0].evidenceIds)] else [])
      + HypothesesOf(steps[1..], ids)
  }

  function FailuresOf(steps: seq<StepNote>): seq<Failure> {
    if steps == [] then []
    else
      (if steps[0].failure.Some? then [steps[0].failure.value] else []) + FailuresOf(steps[1..])
  }

  const NO_OBSERVATIONS := "fresh structured observations"
  const NO_COMPLETE_EVIDENCE := "complete current evidence"

  /** `working_memory`. */
  function WorkingMemory(items: seq<Item>, steps: seq<StepNote>): Memory {
    var confirmed := ConfirmedOf(items);
    Memory(confirmed, HypothesesOf(LastThree(steps), Ids(items)), LastThree(FailuresOf(steps)),
           if confirmed != [] then [] else [NO_OBSERVATIONS])
  }

  /** A fact or hypothesis is grounded when it cites only the given evidence. */
  predicate Grounded(m: Memory, ids: seq<Id>) {
    && (forall c | c in m.confirmed :: c.evidenceIds != [] && CitesOnly(c.evidenceIds, ids))
    && (forall h | h in m.hypotheses :: CitesOnly(h.evidenceIds, ids))
  }

  lemma {:induction false} ConfirmedGrounded(items: seq<Item>, c: Confirmed)
    requires c in ConfirmedOf(items)
    ensures exists i :: 0 <= i < |items| && Current(items[i]) && c.evidenceIds == [items[i].id]
                     && c.observation == Observation(items[i].content)
  {
    if c in ConfirmedOf(items[1..]) {
      ConfirmedGrounded(items[1..], c);
      var i :| 0 <= i < |items[1..]| && Current(items[1..][i]) && c.evidenceIds == [items[1..][i].id]
            && c.observation == Observation(items[1..][i].content);
      assert items[1..][i] == items[i + 1];
    } else {
      assert c == Confirmed(Observation(items[0].content), [items[0].id]);
    }
  }

  lemma {:induction false} HypothesesGrounded(steps: seq<StepNote>, ids: seq<Id>, h: Hypothesis)
    requires h in HypothesesOf(steps, ids)
    ensures CitesOnly(h.evidenceIds, ids)
  {
    if h in HypothesesOf(steps[1..], ids) {
      HypothesesGrounded(steps[1..], ids, h);
    }
  }

  lemma WorkingMemoryGrounded(items: seq<Item>, steps: seq<StepNote>)
    ensures Grounded(WorkingMemory(items, steps), Ids(items))
  {
    var m := WorkingMemory(items, steps);
    forall c | c in m.confirmed
      ensures c.evidenceIds != [] && CitesOnly(c.evidenceIds, Ids(items))
    {
      ConfirmedGrounded(items, c);
      var i :| 0 <= i < |items| && c.evidenceIds == [items[i].id];
      assert Ids(items)[i] == items[i].id;
    }
    forall h | h in m.hypotheses
      ensures CitesOnly(h.evidenceIds, Ids(items))
    {
      HypothesesGrounded(LastThree(steps), Ids(items), h);
    }
  }

  lemma {:induction false} ConfirmedComplete(items: seq<Item>, i: nat)
    requires i < |items| && Current(items[i]) && Observation(items[i].content) != map[]
    ensures Confirmed(Observation(items[i].content), [items[i].id]) in ConfirmedOf(items)
  {
    if i > 0 {
      ConfirmedComplete(items[1..], i - 1);
    }
  }

  /** The observed part of a content. */
  ghost predicate Observes(observation: Content, content: Content) {
    && observation != map[]
    && forall key :: Get(observation, key) ==
         if key in ["phase", "exists", "ready", "containers", "desired_replicas", "ready_replicas"]
         then Get(content, key) else None
  }

  lemma ObservationIff(content: Content, observation: Content)
    ensures Observes(observation, content) <==> observation != map[] && observation == Observation(content)
  {
    if Observes(observation, content) {
      forall key ensures key in observation <==> key in Observation(content) {
        assert Get(observation, key) == Get(Observation(content), key);
      }
      forall key | key in observation ensures observation[key] == Observation(content)[key] {
        assert Get(observation, key) == Get(Observation(content), key);
      }
    }
  }

  /** The confirmed facts are the structured fields of the fresh items of no other uid, and nothing else. */
  lemma ConfirmedIff(items: seq<Item>, steps: seq<StepNote>, c: Confirmed)
    ensures c in WorkingMemory(items, steps).confirmed <==>
              exists item | item in items ::
                item.freshness.Fresh? && !item.uidStatus.Mismatch? && c.evidenceIds == [item.id]
                && Observes(c.observation, item.content)
  {
    if c in ConfirmedOf(items) {
      ConfirmedFrom(items, c);
    }
    if item :| item in items && item.freshness.Fresh? && !item.uidStatus.Mismatch? && c.evidenceIds == [item.id]
               && Observes(c.observation, item.content) {
      ObservationIff(item.content, c.observation);
      var i :| 0 <= i < |items| && items[i] == item;
      ConfirmedComplete(items, i);
      assert c == Confirmed(Observation(item.content), [item.id]);
    }
  }

  lemma {:induction false} ConfirmedFrom(items: seq<Item>, c: Confirmed)
    requires c in ConfirmedOf(items)
    ensures exists item | item in items ::
              item.freshness.Fresh? && !item.uidStatus.Mismatch? && c.evidenceIds == [item.id]
              && Observes(c.observation, item.content)
  {
    if c in ConfirmedOf(items[1..]) {
      ConfirmedFrom(items[1..], c);
      var item :| item in items[1..] && item.freshness.Fresh? && !item.uidStatus.Mismatch?
               && c.evidenceIds == [item.id] && Observes(c.observation, item.content);
      assert item in items;
    } else {
      ObservationIff(items[0].content, c.observation);
      assert items[0] in items;
    }
  }

  lemma {:induction false} HypothesesMembers(steps: seq<StepNote>, ids: seq<Id>, h: Hypothesis)
    ensures h in HypothesesOf(steps, ids) <==>
              exists step | step in steps ::
                step.summary != "" && h == Hypothesis(step.summary, step.evidenceIds)
                && forall id | id in step.evidenceIds :: id in ids
  {
    if steps != [] {
      HypothesesMembers(steps[1..], ids, h);
      assert steps == [steps[0]] + steps[1..];
      assert forall step :: step in steps <==> step == steps[0] || step in steps[1..];
    }
  }

  /** The hypotheses are what the last three steps said on the given items; the failures the last three there were. */
  lemma HypothesesIff(items: seq<Item>, steps: seq<StepNote>, h: Hypothesis)
    ensures h in WorkingMemory(items, steps).hypotheses <==>
              exists k | 0 <= k < |steps| && |steps| - 3 <= k ::
                && steps[k].summary != "" && h == Hypothesis(steps[k].summary, steps[k].evidenceIds)
                && forall id | id in steps[k].evidenceIds :: exists item | item in items :: item.id == id
  {
    HypothesesMembers(LastThree(steps), Ids(items), h);
    forall id ensures id in Ids(items) <==> exists item | item in items :: item.id == id {
      if id in Ids(items) {
        var i :| 0 <= i < |items| && Ids(items)[i] == id;
        assert items[i] in items;
      }
      if item :| item in items && item.id == id {
        var i :| 0 <= i < |items| && items[i] == item;
        assert Ids(items)[i] == id;
      }
    }
    LastThreeMembers(steps);
  }

  lemma LastThreeMembers<T>(s: seq<T>)
    ensures forall x :: x in LastThree(s) <==> exists k | 0 <= k < |s| && |s| - 3 <= k :: s[k] == x
  {
    forall x ensures x in LastThree(s) <==> exists k | 0 <= k < |s| && |s| - 3 <= k :: s[k] == x {
      if x in LastThree(s) {
        var j :| 0 <= j < |LastThree(s)| && LastThree(s)[j] == x;
        assert s[j + |s| - |LastThree(s)|] == x;
      }
      if k :| 0 <= k < |s| && |s| - 3 <= k && s[k] == x {
        assert LastThree(s)[k - (|s| - |LastThree(s)|)] == x;
      }
    }
  }

  lemma {:induction false} FailuresAppend(steps: seq<StepNote>, step: StepNote)
    ensures FailuresOf(steps + [step]) == FailuresOf(steps) + (if step.failure.Some? then [step.failure.value] else [])
  {
    if steps == [] {
      assert [step][1..] == [];
    } else {
      var rest := steps[1..];
      FailuresAppend(rest, step);
      assert (steps + [step])[0] == steps[0] && (steps + [step])[1..] == rest + [step];
    }
  }

  /** The failed attempts are a window over the failures: each new one pushes the oldest of three out. */
  lemma FailedWindow(items: seq<Item>, steps: seq<StepNote>, step: StepNote)
    ensures WorkingMemory(items, []).failed == []
    ensures var before, after := WorkingMemory(items, steps).failed, WorkingMemory(items, steps + [step]).failed;
            && |before| <= 3
            && after == (if step.failure.None? then before
                         else if |before| < 3 then before + [step.failure.value]
                         else before[1..] + [step.failure.value])
  {
    FailuresAppend(steps, step);
  }

  // ---- The context under construction ----

  /** Remaining budgets shown to the reasoner. */
  datatype Remaining = Remaining(steps: int, toolCalls: int, modelCalls: int, tokens: int)

  datatype HistoryEntry = HistoryEntry(sequence: nat, tool: Option<string>)

  /** Input limit, output reserve and safety margin of one model request. */
  datatype ModelBudget = ModelBudget(inputLimit: int, outputTokens: int, safetyMargin: int)

  /** The part of the context that selection never changes. */
  datatype Header = Header(
    targetUid: Json,
    remaining: Remaining,
    history: seq<HistoryEntry>,
    modelBudget: Option<ModelBudget>)

  datatype Selection = Selection(
    retained: nat,
    omitted: int,
    incomplete: bool,
    reasons: seq<string>,
    conflicting: bool)

  datatype View = View(
    header: Header,
    evidence: seq<Item>,
    visible: seq<Id>,
    memory: Memory,
    selection: Selection)

  const WINDOW_LIMIT := "window_limit"
  const OMITTED := "window_limit_duplicate_or_unusable_content"
  const EXCERPT := "excerpt"
  const HISTORICAL := "historical_or_unknown"
  const CONFLICTING := "conflicting_observations"

  // ---- Conflicts ----

  const CONFLICT_FIELDS := ["phase", "ready", "exists", "ready_replicas"]

  predicate Comparable(item: Item) { item.freshness.Fresh? && item.uidStatus.Matched? }

  predicate SameMoment(a: Item, b: Item) {
    a.kind == b.kind && a.uid == b.uid && a.collectedAt == b.collectedAt
  }

  predicate Disagree(a: Item, b: Item) {
    exists f | f in CONFLICT_FIELDS ::
      f in a.content && f in b.content && a.content[f] != b.content[f]
  }

  /** Two fresh, uid-matched candidates of one type, uid and collection time disagree on a field. */
  ghost predicate Conflicting(candidates: seq<Item>) {
    exists a, b | a in candidates && b in candidates ::
      Comparable(a) && Comparable(b) && SameMoment(a, b) && Disagree(a, b)
  }

  /** The conflict mark on the items' own columns. */
  lemma ConflictingIff(candidates: seq<Item>)
    ensures Conflicting(candidates) <==>
              exists a, b | a in candidates && b in candidates ::
                && a.freshness == b.freshness == Fresh && a.uidStatus == b.uidStatus == Matched
                && a.kind == b.kind && a.uid == b.uid && a.collectedAt == b.collectedAt
                && exists f | f in {"phase", "ready", "exists", "ready_replicas"} ::
                     Get(a.content, f).Some? && Get(b.content, f).Some? && Get(a.content, f) != Get(b.content, f)
  {
    forall a: Item, b: Item
      ensures Disagree(a, b) <==>
                exists f | f in {"phase", "ready", "exists", "ready_replicas"} ::
                  Get(a.content, f).Some? && Get(b.content, f).Some? && Get(a.content, f) != Get(b.content, f)
    {
      DisagreeIff(a, b);
    }
  }

  lemma DisagreeIff(a: Item, b: Item)
    ensures Disagree(a, b) <==>
              exists f | f in {"phase", "ready", "exists", "ready_replicas"} ::
                Get(a.content, f).Some? && Get(b.content, f).Some? && Get(a.content, f) != Get(b.content, f)
  {
    assert CONFLICT_FIELDS == ["phase", "ready", "exists", "ready_replicas"];
    if Disagree(a, b) {
      var f :| f in CONFLICT_FIELDS && f in a.content && f in b.content && a.content[f] != b.content[f];
      assert Get(a.content, f).Some? && Get(b.content, f).Some? && Get(a.content, f) != Get(b.content, f);
    }
    if f :| f in {"phase", "ready", "exists", "ready_replicas"}
            && Get(a.content, f).Some? && Get(b.content, f).Some? && Get(a.content, f) != Get(b.content, f) {
      assert f in CONFLICT_FIELDS && a.content[f] != b.content[f];
    }
  }

  // ---- Greedy selection ----

  /** A packing problem: the entry context, how a context is rebuilt for an evidence list, and an arbitrary size test. */
  datatype Problem = Problem(
    candidates: seq<Item>,
    initial: View,
    refresh: seq<Item> -> View,
    fits: View -> bool)

  datatype Fingerprint = Fingerprint(
    kind: EvidenceType, uid: Json, source: string, freshness: Freshness, content: Content)

  function FingerprintOf(item: Item): Fingerprint {
    Fingerprint(item.kind, item.uid, item.source, item.freshness, item.content)
  }

  predicate Usable(item: Item) { item.content != map[] && !Has(item.content, "truncated") }

  /** The context on entry to the packing loop. */
  function Initial(header: Header, candidates: seq<Item>, steps: seq<StepNote>, conflicting: bool): View {
    View(header, [], [], WorkingMemory([], steps),
         Selection(0, |candidates|, candidates != [],
                   if candidates != [] then [WINDOW_LIMIT] else [], conflicting))
  }

  function Reasons(items: seq<Item>, omitted: int, conflicting: bool): seq<string> {
    (if omitted != 0 then [OMITTED] else [])
    + (if exists item | item in items :: item.truncated then [EXCERPT] else [])
    + (if exists item | item in items :: !Current(item) then [HISTORICAL] else [])
    + (if conflicting then [CONFLICTING] else [])
  }

  /** Each reason is given exactly when it applies. */
  lemma ReasonsIff(items: seq<Item>, omitted: int, conflicting: bool)
    ensures "window_limit_duplicate_or_unusable_content" in Reasons(items, omitted, conflicting) <==> omitted != 0
    ensures "excerpt" in Reasons(items, omitted, conflicting) <==> exists item | item in items :: item.truncated
    ensures "historical_or_unknown" in Reasons(items, omitted, conflicting) <==>
              exists item | item in items :: !item.freshness.Fresh? || item.uidStatus.Mismatch?
    ensures "conflicting_observations" in Reasons(items, omitted, conflicting) <==> conflicting
  {
    assert |"window_limit_duplicate_or_unusable_content"| == 42 && |"excerpt"| == 7;
    assert |"historical_or_unknown"| == 21 && |"conflicting_observations"| == 24;
  }

  /** `_refresh` for the given evidence list. */
  function Refreshed(header: Header, items: seq<Item>, total: nat, steps: seq<StepNote>, conflicting: bool): View {
    var reasons := Reasons(items, total - |items|, conflicting);
    var memory := WorkingMemory(items, steps);
    View(header, items, Ids(items),
         if reasons != [] then memory.(missing := memory.missing + [NO_COMPLETE_EVIDENCE]) else memory,
         Selection(|items|, total - |items|, reasons != [], reasons, conflicting))
  }

  /** The problem one call of `select_context` solves. */
  ghost function SelectProblem(
    header: Header, candidates: seq<Item>, steps: seq<StepNote>, fits: View -> bool): Problem
  {
    var conflicting := Conflicting(candidates);
    Problem(candidates, Initial(header, candidates, steps, conflicting),
            (items: seq<Item>) => Refreshed(header, items, |candidates|, steps, conflicting), fits)
  }

  function Select(candidates: seq<Item>, picks: seq<nat>): (items: seq<Item>)
    requires InRange(picks, |candidates|)
    ensures |items| == |picks|
    ensures forall k | 0 <= k < |picks| :: items[k] == candidates[picks[k]]
  {
    seq(|picks|, k requires 0 <= k < |picks| => candidates[picks[k]])
  }

  predicate Duplicate(candidates: seq<Item>, picks: seq<nat>, i: nat)
    requires InRange(picks, |candidates|) && i < |candidates|
  {
    exists k | 0 <= k < |picks| :: FingerprintOf(candidates[picks[k]]) == FingerprintOf(candidates[i])
  }

  /** Whether candidate `i` is retained when `picks` are the candidates retained before it. */
  ghost predicate Retains(p: Problem, picks: seq<nat>, i: nat) {
    && i < |p.candidates|
    && InRange(picks, i)
    && Usable(p.candidates[i])
    && !Duplicate(p.candidates, picks, i)
    && p.fits(p.refresh(Select(p.candidates, picks) + [p.candidates[i]]))
  }

  ghost function RetainTest(p: Problem): Test { (picks: seq<nat>, i: nat) => Retains(p, picks, i) }

  /** Indices retained among the first `n` candidates by the packing loop. */
  ghost function Picks(p: Problem, n: nat): (picks: seq<nat>)
    ensures InRange(picks, n)
  {
    GreedyPicks(RetainTest(p), n)
  }

  ghost predicate AnyUsable(p: Problem, n: nat)
    requires n <= |p.candidates|
  {
    exists i | 0 <= i < n :: Usable(p.candidates[i])
  }

  /** The context after the packing loop has processed `n` candidates. */
  ghost function Packed(p: Problem, n: nat): View
    requires n <= |p.candidates|
  {
    if AnyUsable(p, n) then p.refresh(Select(p.candidates, Picks(p, n))) else p.initial
  }

  ghost function Final(p: Problem): View { Packed(p, |p.candidates|) }

  /** An unusable or duplicate candidate leaves the context as it is. */
  lemma PackedSkip(p: Problem, n: nat)
    requires n < |p.candidates|
    requires !Usable(p.candidates[n]) || Duplicate(p.candidates, Picks(p, n), n)
    ensures Packed(p, n + 1) == Packed(p, n) && Picks(p, n + 1) == Picks(p, n)
  {
    NothingPicked(p, n);
    assert AnyUsable(p, n + 1) <==> AnyUsable(p, n) || Usable(p.candidates[n]);
  }

  /** Any other candidate is tried: kept when the refreshed context fits, rolled back otherwise. */
  lemma PackedTry(p: Problem, n: nat)
    requires n < |p.candidates|
    requires Usable(p.candidates[n]) && !Duplicate(p.candidates, Picks(p, n), n)
    ensures var items := Select(p.candidates, Picks(p, n));
            var tried := p.refresh(items + [p.candidates[n]]);
            && Packed(p, n + 1) == (if p.fits(tried) then tried else p.refresh(items))
            && Select(p.candidates, Picks(p, n + 1)) ==
                 (if p.fits(tried) then items + [p.candidates[n]] else items)
  {
    assert AnyUsable(p, n + 1);
    var items := Select(p.candidates, Picks(p, n));
    if p.fits(p.refresh(items + [p.candidates[n]])) {
      assert Picks(p, n + 1) == Picks(p, n) + [n];
      assert Select(p.candidates, Picks(p, n + 1)) == items + [p.candidates[n]];
    } else {
      assert Picks(p, n + 1) == Picks(p, n);
    }
  }

  lemma PackedEvidence(header: Header, candidates: seq<Item>, steps: seq<StepNote>, fits: View -> bool, n: nat)
    requires n <= |candidates|
    ensures var p := SelectProblem(header, candidates, steps, fits);
            && Packed(p, n).evidence == Select(candidates, Picks(p, n))
            && Packed(p, n).selection.conflicting == Conflicting(candidates)
  {
    NothingPicked(SelectProblem(header, candidates, steps, fits), n);
  }

  lemma {:induction false} NothingPicked(p: Problem, n: nat)
    requires n <= |p.candidates|
    ensures !AnyUsable(p, n) ==> Picks(p, n) == []
  {
    if n > 0 && !AnyUsable(p, n) {
      assert forall i | 0 <= i < n - 1 :: !Usable(p.candidates[i]);
      NothingPicked(p, n - 1);
    }
  }

  // ---- What the selected context guarantees ----

  lemma {:induction false} PickedFits(p: Problem, n: nat)
    requires n <= |p.candidates| && Picks(p, n) != []
    ensures p.fits(p.refresh(Select(p.candidates, Picks(p, n))))
    ensures AnyUsable(p, n)
  {
    var before := Picks(p, n - 1);
    if Retains(p, before, n - 1) {
      assert Select(p.candidates, before + [n - 1]) == Select(p.candidates, before) + [p.candidates[n - 1]];
      assert Usable(p.candidates[n - 1]);
    } else {
      PickedFits(p, n - 1);
      var i :| 0 <= i < n - 1 && Usable(p.candidates[i]);
      assert Usable(p.candidates[i]);
    }
  }

  /** Some candidate would fit as the only one. */
  ghost predicate SomeFitsAlone(p: Problem, n: nat)
    requires n <= |p.candidates|
  {
    exists i | 0 <= i < n :: Usable(p.candidates[i]) && p.fits(p.refresh([p.candidates[i]]))
  }

  /** The first candidate that fits alone is retained, and nothing before it. */
  lemma {:induction false} PickedIffOneFitsAlone(p: Problem, n: nat)
    requires n <= |p.candidates|
    ensures Picks(p, n) != [] <==> SomeFitsAlone(p, n)
  {
    if n > 0 {
      PickedIffOneFitsAlone(p, n - 1);
      if Picks(p, n - 1) == [] {
        assert Select(p.candidates, []) + [p.candidates[n - 1]] == [p.candidates[n - 1]];
        assert SomeFitsAlone(p, n) <==> Usable(p.candidates[n - 1]) && p.fits(p.refresh([p.candidates[n - 1]]));
      }
    }
  }

  /**
   * After a successful selection the context fits exactly when one usable candidate fits alone, no
   * candidate is usable, or the refreshed empty context fits. In the first case rollback restores the
   * last accepted context; otherwise it leaves the refreshed empty one, which differs from the context
   * tested on entry.
   */
  lemma FinalFits(header: Header, candidates: seq<Item>, steps: seq<StepNote>, fits: View -> bool)
    requires fits(SelectProblem(header, candidates, steps, fits).initial)
    ensures var p := SelectProblem(header, candidates, steps, fits);
            fits(Final(p)) <==>
              || (exists i | 0 <= i < |candidates| :: Usable(candidates[i]) && fits(p.refresh([candidates[i]])))
              || (forall item | item in candidates :: !Usable(item))
              || fits(p.refresh([]))
  {
    var p, n := SelectProblem(header, candidates, steps, fits), |candidates|;
    PackedEvidence(header, candidates, steps, fits, n);
    PickedIffOneFitsAlone(p, n);
    if Picks(p, n) != [] {
      PickedFits(p, n);
    } else {
      assert Select(candidates, []) == [];
    }
  }

  lemma RefreshedReasons(header: Header, items: seq<Item>, total: nat, steps: seq<StepNote>, conflicting: bool)
    ensures Refreshed(header, items, total, steps, conflicting).selection.reasons != [WINDOW_LIMIT]
  {
    assert |OMITTED| != |WINDOW_LIMIT| && |EXCERPT| != |WINDOW_LIMIT|;
    assert |HISTORICAL| != |WINDOW_LIMIT| && |CONFLICTING| != |WINDOW_LIMIT|;
    assert forall r | r in Reasons(items, total - |items|, conflicting) :: |r| != |WINDOW_LIMIT|;
    assert WINDOW_LIMIT in [WINDOW_LIMIT];
  }

  /** Selection can succeed with a context that does not fit: accept only the context tested on entry. */
  lemma RollbackToEmptyMayNotFit(header: Header, candidates: seq<Item>, steps: seq<StepNote>)
    requires AnyUsable(SelectProblem(header, candidates, steps, (v: View) => true), |candidates|)
    ensures var p := SelectProblem(header, candidates, steps, (v: View) => v.selection.reasons == [WINDOW_LIMIT]);
            p.fits(p.initial) && Final(p).evidence == [] && !p.fits(Final(p))
  {
    var p := SelectProblem(header, candidates, steps, (v: View) => v.selection.reasons == [WINDOW_LIMIT]);
    var i :| 0 <= i < |candidates| && Usable(candidates[i]);
    assert Usable(p.candidates[i]);
    var picks := Picks(p, |candidates|);
    RefreshedReasons(header, Select(candidates, picks), |candidates|, steps, Conflicting(candidates));
    if picks != [] {
      PickedFits(p, |candidates|);
    }
  }

  /**
   * Having no usable candidate is the exact guard: with one, some size test accepts the entry
   * context and rejects a result that retains nothing; without one, none does.
   */
  lemma EmptyResultSafeIffNothingUsable(header: Header, candidates: seq<Item>, steps: seq<StepNote>)
    ensures (forall fits: View -> bool ::
               var p := SelectProblem(header, candidates, steps, fits);
               p.fits(p.initial) && Final(p).evidence == [] ==> p.fits(Final(p)))
            <==> (forall i | 0 <= i < |candidates| :: !Usable(candidates[i]))
  {
    if i :| 0 <= i < |candidates| && Usable(candidates[i]) {
      assert Usable(SelectProblem(header, candidates, steps, (v: View) => true).candidates[i]);
      RollbackToEmptyMayNotFit(header, candidates, steps);
    } else {
      forall fits: View -> bool
        ensures var p := SelectProblem(header, candidates, steps, fits);
                p.fits(p.initial) && Final(p).evidence == [] ==> p.fits(Final(p))
      {
        var p := SelectProblem(header, candidates, steps, fits);
        assert !AnyUsable(p, |p.candidates|);
      }
    }
  }

  // ---- Why candidates are left out ----

  /** The same kind of evidence from the same source about the same uid, equally fresh and with the same content. */
  predicate SameObservation(a: Item, b: Item) {
    && a.kind == b.kind && a.uid == b.uid && a.source == b.source && a.freshness == b.freshness
    && a.content == b.content
  }

  lemma SameFingerprintIffSameObservation(a: Item, b: Item)
    ensures FingerprintOf(a) == FingerprintOf(b) <==> SameObservation(a, b)
  {
  }

  /** An earlier retained candidate shows the same. */
  ghost predicate EarlierTwin(p: Problem, picks: seq<nat>, i: nat)
    requires i < |p.candidates|
  {
    exists j: nat | j < i && j in picks :: SameObservation(p.candidates[j], p.candidates[i])
  }

  /** Why a candidate was left out. */
  ghost predicate Omitted(p: Problem, picks: seq<nat>, i: nat)
    requires i < |p.candidates|
  {
    || p.candidates[i].content == map[]
    || Has(p.candidates[i].content, "truncated")
    || EarlierTwin(p, picks, i)
    || !p.fits(p.refresh(Select(p.candidates, Below(picks, i)) + [p.candidates[i]]))
  }

  lemma DuplicateIsEarlierTwin(p: Problem, picks: seq<nat>, i: nat)
    requires i < |p.candidates| && Increasing(picks)
    ensures Duplicate(p.candidates, Below(picks, i), i) <==> EarlierTwin(p, picks, i)
  {
    var below := Below(picks, i);
    if Duplicate(p.candidates, below, i) {
      var k :| 0 <= k < |below| && FingerprintOf(p.candidates[below[k]]) == FingerprintOf(p.candidates[i]);
      BelowContents(picks, i, below[k]);
      assert EarlierTwin(p, picks, i);
    }
    if EarlierTwin(p, picks, i) {
      var j: nat :| j < i && j in picks && FingerprintOf(p.candidates[j]) == FingerprintOf(p.candidates[i]);
      BelowContents(picks, i, j);
    }
  }

  /** Each candidate is left out for exactly the listed reasons. */
  lemma OmissionExplained(p: Problem, i: nat)
    requires i < |p.candidates|
    ensures var picks := Picks(p, |p.candidates|);
            i !in picks <==> Omitted(p, picks, i)
  {
    var t, picks := RetainTest(p), Picks(p, |p.candidates|);
    PicksAreGreedy(t, |p.candidates|);
    DuplicateIsEarlierTwin(p, picks, i);
    assert Decided(t, picks, i);
  }

  /** No two retained items show the same. */
  lemma RetainedAreDistinct(p: Problem, i: nat, j: nat)
    requires i in Picks(p, |p.candidates|) && j in Picks(p, |p.candidates|) && i < j
    ensures !SameObservation(p.candidates[i], p.candidates[j])
  {
    var t, picks := RetainTest(p), Picks(p, |p.candidates|);
    PicksAreGreedy(t, |p.candidates|);
    assert Decided(t, picks, j);
    BelowContents(picks, j, i);
  }

  /**
   * Accounting of the result: counts add up, exactly the retained items are visible, and memory
   * cites nothing else.
   */
  lemma FinalAccounting(header: Header, candidates: seq<Item>, steps: seq<StepNote>, fits: View -> bool)
    ensures var p := SelectProblem(header, candidates, steps, fits);
            var v := Final(p);
            && v.header == header
            && v.evidence == Select(candidates, Picks(p, |candidates|))
            && v.selection.retained == |v.evidence|
            && v.selection.retained + v.selection.omitted == |candidates|
            && v.visible == Ids(v.evidence)
            && Grounded(v.memory, v.visible)
            && v.selection.conflicting == Conflicting(candidates)
  {
    var p := SelectProblem(header, candidates, steps, fits);
    PackedEvidence(header, candidates, steps, fits, |candidates|);
    NothingPicked(p, |candidates|);
    WorkingMemoryGrounded(Final(p).evidence, steps);
    assert Ids([]) == [];
  }

  /**
   * The `incomplete` mark is honest in both directions: it is absent exactly when every candidate
   * is shown, untruncated, current and free of conflicts.
   */
  lemma CompleteMeansEverythingShown(header: Header, candidates: seq<Item>, steps: seq<StepNote>, fits: View -> bool)
    ensures var v := Final(SelectProblem(header, candidates, steps, fits));
            !v.selection.incomplete <==>
              && v.evidence == candidates
              && (forall item | item in candidates :: !item.truncated && Current(item))
              && !Conflicting(candidates)
  {
    var p, n := SelectProblem(header, candidates, steps, fits), |candidates|;
    var v := Final(p);
    FinalAccounting(header, candidates, steps, fits);
    NothingPicked(p, n);
    if v.evidence == candidates && n > 0 {
      PickedFits(p, n);
    }
    if v.selection.omitted == 0 {
      AllPicked(RetainTest(p), n);
      assert Select(candidates, Picks(p, n)) == candidates;
    }
  }
}
