/** `select_context` and `_refresh` as they run: updates in place of one context object. */
module ContextPacking {
  import opened Common
  import opened GreedyChoice
  import opened ContextMemory

  /** A key of the `observations` map, and a value read under it. */
  datatype Cell = Cell(kind: EvidenceType, uid: Json, collectedAt: Option<string>, field: string)

  datatype Reading = Reading(cell: Cell, value: Json)

  function CellOf(item: Item, field: string): Cell { Cell(item.kind, item.uid, item.collectedAt, field) }

  /** Readings of the first `m` of the given fields of an item. */
  ghost function FieldReadings(item: Item, fields: seq<string>, m: nat): set<Reading>
    requires m <= |fields|
  {
    if m == 0 then {}
    else
      var f := fields[m - 1];
      FieldReadings(item, fields, m - 1) + (if f in item.content then {Reading(CellOf(item, f), item.content[f])} else {})
  }

  /** Readings of the first `n` candidates. */
  ghost function Readings(candidates: seq<Item>, fields: seq<string>, n: nat): set<Reading>
    requires n <= |candidates|
  {
    if n == 0 then {}
    else
      Readings(candidates, fields, n - 1)
      + (if Comparable(candidates[n - 1]) then FieldReadings(candidates[n - 1], fields, |fields|) else {})
  }

  /** Two different values have been read under one key. */
  ghost predicate Clash(readings: set<Reading>) {
    exists a, b | a in readings && b in readings :: a.cell == b.cell && a.value != b.value
  }

  /** The map holds, for exactly the keys read, one of the values read. */
  ghost predicate Remembers(readings: set<Reading>, observations: map<Cell, Json>) {
    && (forall r | r in readings :: r.cell in observations)
    && (forall c | c in observations :: Reading(c, observations[c]) in readings)
  }

  /** Overwriting loses nothing: the first value that differs from the remembered one reveals the clash. */
  lemma OverwriteRevealsClash(readings: set<Reading>, observations: map<Cell, Json>, r: Reading)
    requires Remembers(readings, observations)
    ensures Remembers(readings + {r}, observations[r.cell := r.value])
    ensures Clash(readings + {r}) <==>
              Clash(readings) || (r.cell in observations && observations[r.cell] != r.value)
  {
    var more := readings + {r};
    if r.cell in observations && observations[r.cell] != r.value {
      var earlier := Reading(r.cell, observations[r.cell]);
      assert earlier in more && r in more;
    }
    if Clash(readings) {
      var a, b :| a in readings && b in readings && a.cell == b.cell && a.value != b.value;
      assert a in more && b in more;
    } else if Clash(more) {
      var a, b :| a in more && b in more && a.cell == b.cell && a.value != b.value;
      var other := if a == r then b else a;
      assert other in readings && other.cell == r.cell && Reading(r.cell, observations[r.cell]) in readings;
    }
  }

  lemma {:induction false} FieldReadingsContents(item: Item, fields: seq<string>, m: nat, r: Reading)
    requires m <= |fields|
    ensures r in FieldReadings(item, fields, m) <==>
              exists j | 0 <= j < m ::
                fields[j] in item.content && r == Reading(CellOf(item, fields[j]), item.content[fields[j]])
  {
    if m > 0 {
      FieldReadingsContents(item, fields, m - 1, r);
    }
  }

  lemma {:induction false} ReadingsContents(candidates: seq<Item>, fields: seq<string>, n: nat, r: Reading)
    requires n <= |candidates|
    ensures r in Readings(candidates, fields, n) <==>
              exists i | 0 <= i < n :: Comparable(candidates[i]) && r in FieldReadings(candidates[i], fields, |fields|)
  {
    if n > 0 {
      ReadingsContents(candidates, fields, n - 1, r);
    }
  }

  lemma ReadingsAreCandidateFields(candidates: seq<Item>, fields: seq<string>, r: Reading)
    ensures r in Readings(candidates, fields, |candidates|) <==>
              exists item, f | item in candidates && f in fields ::
                Comparable(item) && f in item.content && r == Reading(CellOf(item, f), item.content[f])
  {
    ReadingsContents(candidates, fields, |candidates|, r);
    if r in Readings(candidates, fields, |candidates|) {
      var i :| 0 <= i < |candidates| && Comparable(candidates[i]) && r in FieldReadings(candidates[i], fields, |fields|);
      FieldReadingsContents(candidates[i], fields, |fields|, r);
    }
    if item, f :| item in candidates && f in fields && Comparable(item) && f in item.content
                  && r == Reading(CellOf(item, f), item.content[f]) {
      FieldReadingsContents(item, fields, |fields|, r);
    }
  }

  /** Having read everything, a clash is a conflict between two candidates. */
  lemma ClashIsConflict(candidates: seq<Item>)
    ensures Clash(Readings(candidates, CONFLICT_FIELDS, |candidates|)) <==> Conflicting(candidates)
  {
    var all := Readings(candidates, CONFLICT_FIELDS, |candidates|);
    if Clash(all) {
      var a, b :| a in all && b in all && a.cell == b.cell && a.value != b.value;
      ReadingsAreCandidateFields(candidates, CONFLICT_FIELDS, a);
      ReadingsAreCandidateFields(candidates, CONFLICT_FIELDS, b);
      var x, f :| x in candidates && f in CONFLICT_FIELDS && Comparable(x) && f in x.content
                  && a == Reading(CellOf(x, f), x.content[f]);
      var y, g :| y in candidates && g in CONFLICT_FIELDS && Comparable(y) && g in y.content
                  && b == Reading(CellOf(y, g), y.content[g]);
      assert SameMoment(x, y) && Disagree(x, y);
    }
    if Conflicting(candidates) {
      var a, b :| a in candidates && b in candidates && Comparable(a) && Comparable(b) && SameMoment(a, b) && Disagree(a, b);
      var f :| f in CONFLICT_FIELDS && f in a.content && f in b.content && a.content[f] != b.content[f];
      ReadingsAreCandidateFields(candidates, CONFLICT_FIELDS, Reading(CellOf(a, f), a.content[f]));
      ReadingsAreCandidateFields(candidates, CONFLICT_FIELDS, Reading(CellOf(b, f), b.content[f]));
    }
  }

  /** The context dictionary that `select_context` fills in. */
  class PackingContext {
    const header: Header
    var evidence: seq<Item>
    var visible: seq<Id>
    var memory: Memory
    var selection: Selection

    function Value(): View
      reads this
    {
      View(header, evidence, visible, memory, selection)
    }

    constructor (header: Header)
      ensures this.header == header
    {
      this.header := header;
      evidence, visible := [], [];
      memory := Memory([], [], [], []);
      selection := Selection(0, 0, false, [], false);
    }

    /** The reasons `_refresh` lists. */
    method ListReasons(omitted: int) returns (reasons: seq<string>)
      ensures reasons == Reasons(evidence, omitted, selection.conflicting)
    {
      reasons := [];
      if omitted != 0 {
        reasons := reasons + [OMITTED];
      }
      if exists item | item in evidence :: item.truncated {
        reasons := reasons + [EXCERPT];
      }
      if exists item | item in evidence :: !Current(item) {
        reasons := reasons + [HISTORICAL];
      }
      if selection.conflicting {
        reasons := reasons + [CONFLICTING];
      }
    }

    /** `_refresh`. */
    method Refresh(candidates: seq<Item>, steps: seq<StepNote>)
      modifies this`visible, this`memory, this`selection
      ensures Value() == Refreshed(header, evidence, |candidates|, steps, old(selection.conflicting))
    {
      visible := Ids(evidence);
      memory := WorkingMemory(evidence, steps);
      var omitted := |candidates| - |evidence|;
      var reasons := ListReasons(omitted);
      selection := selection.(
        retained := |evidence|, omitted := omitted, incomplete := reasons != [], reasons := reasons);
      if reasons != [] {
        memory := memory.(missing := memory.missing + [NO_COMPLETE_EVIDENCE]);
      }
    }

    /** The fields of one candidate against the map, which is overwritten as it goes. */
    method MarkItem(item: Item, fields: seq<string>, remembered: map<Cell, Json>, ghost readings: set<Reading>)
      returns (observations: map<Cell, Json>)
      requires Remembers(readings, remembered)
      modifies this`selection
      ensures Remembers(readings + FieldReadings(item, fields, |fields|), observations)
      ensures old(selection.conflicting) == Clash(readings) ==>
                selection == old(selection).(conflicting := Clash(readings + FieldReadings(item, fields, |fields|)))
      ensures selection == old(selection).(conflicting := selection.conflicting)
      ensures old(selection.conflicting) ==> selection.conflicting
    {
      observations := remembered;
      ghost var seen := readings;
      var j := 0;
      while j < |fields|
        invariant 0 <= j <= |fields|
        invariant seen == readings + FieldReadings(item, fields, j) && Remembers(seen, observations)
        invariant selection == old(selection).(conflicting := selection.conflicting)
        invariant old(selection.conflicting) ==> selection.conflicting
        invariant old(selection.conflicting) == Clash(readings) ==> selection.conflicting == Clash(seen)
      {
        var field := fields[j];
        if field in item.content {
          var key, value := CellOf(item, field), item.content[field];
          OverwriteRevealsClash(seen, observations, Reading(key, value));
          if key in observations && observations[key] != value {
            selection := selection.(conflicting := true);
          }
          observations := observations[key := value];
          seen := seen + {Reading(key, value)};
        }
        j := j + 1;
      }
    }

    /** The conflict scan of `select_context`: one pass over the candidates. */
    method MarkConflicts(candidates: seq<Item>, fields: seq<string>)
      requires !selection.conflicting
      modifies this`selection
      ensures selection == old(selection).(conflicting := Clash(Readings(candidates, fields, |candidates|)))
    {
      var observations: map<Cell, Json> := map[];
      ghost var readings: set<Reading> := {};
      var i := 0;
      while i < |candidates|
        invariant 0 <= i <= |candidates|
        invariant readings == Readings(candidates, fields, i) && Remembers(readings, observations)
        invariant selection == old(selection).(conflicting := Clash(readings))
      {
        var item := candidates[i];
        if item.freshness.Fresh? && item.uidStatus.Matched? {
          observations := MarkItem(item, fields, observations, readings);
          readings := readings + FieldReadings(item, fields, |fields|);
        }
        i := i + 1;
      }
    }

    /** One round of the packing loop: try a candidate and roll back when the context no longer fits. */
    method Consider(ghost p: Problem, i: nat, candidates: seq<Item>, steps: seq<StepNote>, fits: View -> bool,
                    seen: set<Fingerprint>)
      returns (seen': set<Fingerprint>)
      requires p == SelectProblem(header, candidates, steps, fits) && i < |candidates|
      requires Value() == Packed(p, i) && Seen(evidence, seen)
      requires evidence == Select(candidates, Picks(p, i)) && selection.conflicting == Conflicting(candidates)
      modifies this`evidence, this`visible, this`memory, this`selection
      ensures Value() == Packed(p, i + 1) && Seen(evidence, seen')
      ensures evidence == Select(candidates, Picks(p, i + 1)) && selection.conflicting == Conflicting(candidates)
    {
      PackedEvidence(header, candidates, steps, fits, i + 1);
      var item := candidates[i];
      seen' := seen;
      if item.content == map[] || Has(item.content, "truncated") {
        PackedSkip(p, i);
        return;
      }
      var fingerprint := FingerprintOf(item);
      SeenIsDuplicate(p, i, evidence, seen);
      if fingerprint in seen {
        PackedSkip(p, i);
        return;
      }
      PackedTry(p, i);
      var previous := evidence;
      evidence := evidence + [item];
      Refresh(candidates, steps);
      assert Value() == p.refresh(previous + [item]);
      if !fits(Value()) {
        evidence := previous;
        Refresh(candidates, steps);
        assert Value() == p.refresh(previous);
      } else {
        seen' := seen + {fingerprint};
        SeenMore(previous, seen, item);
      }
    }

    /** The context before packing. */
    method Start(candidates: seq<Item>, steps: seq<StepNote>)
      modifies this
      ensures Value() == Initial(header, candidates, steps, Conflicting(candidates))
    {
      evidence := [];
      visible := [];
      memory := WorkingMemory([], steps);
      selection := Selection(0, |candidates|, candidates != [],
                             if candidates != [] then [WINDOW_LIMIT] else [], false);
      MarkConflicts(candidates, CONFLICT_FIELDS);
      ClashIsConflict(candidates);
    }

    /** The packing loop. */
    method Pack(ghost p: Problem, candidates: seq<Item>, steps: seq<StepNote>, fits: View -> bool)
      requires p == SelectProblem(header, candidates, steps, fits) && Value() == p.initial
      modifies this`evidence, this`visible, this`memory, this`selection
      ensures Value() == Final(p)
    {
      var seen: set<Fingerprint> := {};
      var i := 0;
      PackedEvidence(header, candidates, steps, fits, 0);
      while i < |candidates|
        invariant 0 <= i <= |candidates|
        invariant Value() == Packed(p, i)
        invariant Seen(evidence, seen)
        invariant evidence == Select(candidates, Picks(p, i)) && selection.conflicting == Conflicting(candidates)
      {
        seen := Consider(p, i, candidates, steps, fits, seen);
        i := i + 1;
      }
    }

    /** `select_context`: greedy packing with rollback against an arbitrary size test. */
    method SelectContext(candidates: seq<Item>, steps: seq<StepNote>, fits: View -> bool) returns (ok: bool)
      modifies this
      ensures var p := SelectProblem(header, candidates, steps, fits);
              && ok == fits(p.initial)
              && Value() == if ok then Final(p) else p.initial
    {
      Start(candidates, steps);
      ok := fits(Value());
      if ok {
        Pack(SelectProblem(header, candidates, steps, fits), candidates, steps, fits);
      }
    }
  }

  /** `seen` holds the fingerprints of the retained items. */
  ghost predicate Seen(items: seq<Item>, seen: set<Fingerprint>) {
    forall f :: f in seen <==> exists k | 0 <= k < |items| :: f == FingerprintOf(items[k])
  }

  lemma SeenIsDuplicate(p: Problem, i: nat, items: seq<Item>, seen: set<Fingerprint>)
    requires i < |p.candidates| && items == Select(p.candidates, Picks(p, i)) && Seen(items, seen)
    ensures FingerprintOf(p.candidates[i]) in seen <==> Duplicate(p.candidates, Picks(p, i), i)
  {
    var picks := Picks(p, i);
    assert forall k | 0 <= k < |picks| :: items[k] == p.candidates[picks[k]];
  }

  lemma SeenMore(items: seq<Item>, seen: set<Fingerprint>, item: Item)
    requires Seen(items, seen)
    ensures Seen(items + [item], seen + {FingerprintOf(item)})
  {
    var more := items + [item];
    assert more[|items|] == item && forall k | 0 <= k < |items| :: more[k] == items[k];
  }
}
