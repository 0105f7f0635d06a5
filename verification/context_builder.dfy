/** `AgentContextBuilder.build` (app/ops_agent/agent_core.py): sort, select, sanitize, recheck. */
module ContextBuilder {
  import opened Common
  import opened GreedyChoice
  import opened ContextMemory
  import opened ContextPacking
  import opened EvidenceOrder

  datatype BuildError = ContextTooLarge

  /** Size measures and text functions of one builder; `sanitize` yields None when it had to truncate. */
  datatype Rules = Rules(
    items: ItemRules,
    maxBytes: nat,
    bytes: View -> nat,
    estimate: View -> nat,
    sanitizeHeader: Header -> Option<Header>,
    sanitize: View -> Option<View>)

  /** Everything one call reads. */
  datatype Request = Request(
    runId: Id,
    now: int,
    header: Header,
    evidence: seq<Evidence>,
    steps: seq<StepNote>,
    ranking: Ranking,
    budget: Option<ModelBudget>)

  /** The run's evidence keyed by id: a repeated id keeps its first position and its last row. */
  function Keyed(evidence: seq<Evidence>, runId: Id): seq<Evidence> {
    if evidence == [] then []
    else
      var before, e := Keyed(evidence[..|evidence| - 1], runId), evidence[|evidence| - 1];
      if e.runId != runId then before else Put(before, e)
  }

  function Put(rows: seq<Evidence>, e: Evidence): seq<Evidence> {
    if rows == [] then [e]
    else if rows[0].id == e.id then [e] + rows[1..]
    else [rows[0]] + Put(rows[1..], e)
  }

  function ItemsOf(rules: Rules, request: Request, rows: seq<Evidence>): (items: seq<Item>)
    ensures |items| == |rows|
    ensures forall i | 0 <= i < |rows| ::
              items[i] == EvidenceItem(rows[i], request.header.targetUid, request.now, rules.items)
  {
    seq(|rows|, i requires 0 <= i < |rows| =>
      EvidenceItem(rows[i], request.header.targetUid, request.now, rules.items))
  }

  function Candidates(rules: Rules, request: Request): seq<Item> {
    SortDescending(request.ranking, ItemsOf(rules, request, Keyed(request.evidence, request.runId)))
  }

  /** The size test of one call. */
  predicate Fits(rules: Rules, budget: Option<ModelBudget>, v: View) {
    rules.bytes(v) <= rules.maxBytes && (budget.Some? ==> rules.estimate(v) <= budget.value.inputLimit)
  }

  function FitsTest(rules: Rules, budget: Option<ModelBudget>): View -> bool {
    (v: View) => Fits(rules, budget, v)
  }

  ghost function BuildProblem(rules: Rules, request: Request, header: Header): Problem {
    SelectProblem(header.(modelBudget := request.budget), Candidates(rules, request), request.steps,
                  FitsTest(rules, request.budget))
  }

  /** The context `build` returns, or its only error. */
  ghost function Build(rules: Rules, request: Request): Result<View, BuildError> {
    match rules.sanitizeHeader(request.header)
    case None => Err(ContextTooLarge)
    case Some(header) =>
      var p := BuildProblem(rules, request, header);
      if !p.fits(p.initial) then Err(ContextTooLarge)
      else
        match rules.sanitize(Final(p))
        case None => Err(ContextTooLarge)
        case Some(clean) => if Fits(rules, request.budget, clean) then Ok(clean) else Err(ContextTooLarge)
  }

  /** `build` as it runs, over one context object. */
  method BuildInPlace(rules: Rules, request: Request) returns (r: Result<View, BuildError>)
    ensures r == Build(rules, request)
  {
    var sanitizedHeader := rules.sanitizeHeader(request.header);
    if sanitizedHeader.None? {
      return Err(ContextTooLarge);
    }
    var context := new PackingContext(sanitizedHeader.value.(modelBudget := request.budget));
    var ok := context.SelectContext(Candidates(rules, request), request.steps, FitsTest(rules, request.budget));
    if !ok {
      return Err(ContextTooLarge);
    }
    var clean := rules.sanitize(context.Value());
    if clean.None? || !Fits(rules, request.budget, clean.value) {
      return Err(ContextTooLarge);
    }
    return Ok(clean.value);
  }

  /** Whatever selection and sanitizing did, a returned context is within every limit. */
  lemma BuiltContextFits(rules: Rules, request: Request)
    requires Build(rules, request).Ok?
    ensures var v := Build(rules, request).value;
            && rules.bytes(v) <= rules.maxBytes
            && (request.budget.Some? ==> rules.estimate(v) <= request.budget.value.inputLimit)
  {
    var header := rules.sanitizeHeader(request.header).value;
    var clean := rules.sanitize(Final(BuildProblem(rules, request, header))).value;
    assert Fits(rules, request.budget, clean);
  }

  // ---- What the returned context says about the evidence ----

  /** Redaction rewrites text inside contents; ids, metadata marks and the selection record stay. */
  ghost predicate KeepsMarks(v: View, w: View) {
    && w.visible == v.visible
    && w.selection == v.selection
    && |w.evidence| == |v.evidence|
    && forall i | 0 <= i < |v.evidence| ::
         && w.evidence[i].id == v.evidence[i].id
         && w.evidence[i].freshness == v.evidence[i].freshness
         && w.evidence[i].uidStatus == v.evidence[i].uidStatus
  }

  /** The assumption on the sanitizer used below. */
  ghost predicate SanitizerKeepsMarks(rules: Rules) {
    forall v :: rules.sanitize(v).Some? ==> KeepsMarks(v, rules.sanitize(v).value)
  }

  lemma {:induction false} PutMembers(rows: seq<Evidence>, e: Evidence, x: Evidence)
    requires x in Put(rows, e)
    ensures x == e || x in rows
  {
    if rows != [] && rows[0].id != e.id && x in Put(rows[1..], e) {
      PutMembers(rows[1..], e, x);
    }
  }

  lemma {:induction false} KeyedMembers(evidence: seq<Evidence>, runId: Id, x: Evidence)
    requires x in Keyed(evidence, runId)
    ensures x in evidence && x.runId == runId
  {
    var last := |evidence| - 1;
    var before := Keyed(evidence[..last], runId);
    if x in before {
      KeyedMembers(evidence[..last], runId, x);
    } else {
      PutMembers(before, evidence[last], x);
    }
  }

  /** Each shown item describes an Evidence row of this run, with the marks its columns give at build time. */
  ghost predicate Describes(rules: Rules, request: Request, item: Item) {
    exists e | e in request.evidence ::
      && e.runId == request.runId
      && e.id == item.id
      && (item.freshness.Fresh? <==> Recent(e, request.now, rules.items.ttls))
      && (item.freshness.Stale? <==> Outdated(e, request.now, rules.items.ttls))
      && (item.uidStatus.Mismatch? <==> OfOtherUid(e.content, request.header.targetUid))
      && (item.uidStatus.Matched? <==>
            Truthy(request.header.targetUid) && Reports(e.content, request.header.targetUid))
  }

  lemma CandidateDescribesRow(rules: Rules, request: Request, item: Item)
    requires item in Candidates(rules, request)
    ensures Describes(rules, request, item)
  {
    var rows := Keyed(request.evidence, request.runId);
    assert item in multiset(Candidates(rules, request));
    var i :| 0 <= i < |rows| && item == EvidenceItem(rows[i], request.header.targetUid, request.now, rules.items);
    KeyedMembers(request.evidence, request.runId, rows[i]);
    FreshIffRecent(rows[i], request.now, rules.items.ttls);
    UidStatusIff(rows[i].content, request.header.targetUid);
  }

  /** The visible ids of a returned context are those of its evidence, all rows of this run. */
  lemma BuiltContextDescribesRun(rules: Rules, request: Request)
    requires SanitizerKeepsMarks(rules) && Build(rules, request).Ok?
    ensures var v := Build(rules, request).value;
            && v.visible == Ids(v.evidence)
            && (forall item | item in v.evidence :: Describes(rules, request, item))
            && v.selection.conflicting == Conflicting(Candidates(rules, request))
  {
    var header := rules.sanitizeHeader(request.header).value;
    var p := BuildProblem(rules, request, header);
    var v, w := Final(p), Build(rules, request).value;
    FinalAccounting(header.(modelBudget := request.budget), Candidates(rules, request), request.steps,
                    FitsTest(rules, request.budget));
    assert KeepsMarks(v, w);
    forall i | 0 <= i < |w.evidence| ensures Describes(rules, request, w.evidence[i]) {
      var pick := Picks(p, |p.candidates|)[i];
      assert v.evidence[i] == p.candidates[pick];
      CandidateDescribesRow(rules, request, v.evidence[i]);
    }
  }

  // ---- Order independence ----

  predicate DistinctRows(evidence: seq<Evidence>) {
    forall i, j | 0 <= i < j < |evidence| :: evidence[i].id != evidence[j].id
  }

  ghost predicate SameRows(a: seq<Evidence>, b: seq<Evidence>) { forall e :: e in a <==> e in b }

  lemma {:induction false} PutNew(rows: seq<Evidence>, e: Evidence)
    requires forall x | x in rows :: x.id != e.id
    ensures Put(rows, e) == rows + [e]
  {
    if rows != [] {
      PutNew(rows[1..], e);
    }
  }

  /** With distinct ids, keying by id only drops the rows of other runs. */
  lemma {:induction false} KeyedOfDistinct(evidence: seq<Evidence>, runId: Id)
    requires DistinctRows(evidence)
    ensures var rows := Keyed(evidence, runId);
            && (forall x :: x in rows <==> x in evidence && x.runId == runId)
            && DistinctRows(rows)
  {
    if evidence != [] {
      var last := |evidence| - 1;
      var front, e := evidence[..last], evidence[last];
      assert evidence == front + [e];
      KeyedOfDistinct(front, runId);
      PutNew(Keyed(front, runId), e);
    }
  }

  lemma ItemsOfSameRows(rules: Rules, request: Request, rows: seq<Evidence>, rows': seq<Evidence>, x: Item)
    requires SameRows(rows, rows') && x in ItemsOf(rules, request, rows)
    ensures x in ItemsOf(rules, request, rows')
  {
    var items, items' := ItemsOf(rules, request, rows), ItemsOf(rules, request, rows');
    var i :| 0 <= i < |items| && items[i] == x;
    assert rows[i] in rows';
    var k :| 0 <= k < |rows'| && rows'[k] == rows[i];
    assert items'[k] == x;
  }

  lemma CandidatesOrderIndependent(rules: Rules, request: Request, evidence: seq<Evidence>)
    requires DistinctRows(request.evidence) && DistinctRows(evidence) && SameRows(request.evidence, evidence)
    ensures Candidates(rules, request) == Candidates(rules, request.(evidence := evidence))
  {
    var rows, rows' := Keyed(request.evidence, request.runId), Keyed(evidence, request.runId);
    KeyedOfDistinct(request.evidence, request.runId);
    KeyedOfDistinct(evidence, request.runId);
    assert SameRows(rows, rows');
    var items, items' := ItemsOf(rules, request, rows), ItemsOf(rules, request, rows');
    forall x ensures x in items <==> x in items' {
      if x in items { ItemsOfSameRows(rules, request, rows, rows', x); }
      if x in items' { ItemsOfSameRows(rules, request, rows', rows, x); }
    }
    SortIsOrderIndependent(request.ranking, items, items');
    assert ItemsOf(rules, request.(evidence := evidence), rows') == items';
  }

  /** For evidence with distinct ids, `build` gives the same result for every order of the list. */
  lemma BuildIsOrderIndependent(rules: Rules, request: Request, evidence: seq<Evidence>)
    requires DistinctRows(request.evidence) && DistinctRows(evidence) && SameRows(request.evidence, evidence)
    ensures Build(rules, request) == Build(rules, request.(evidence := evidence))
  {
    CandidatesOrderIndependent(rules, request, evidence);
  }
}
