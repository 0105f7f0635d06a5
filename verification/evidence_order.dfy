/** The evidence order of `AgentContextBuilder.build` (app/ops_agent/agent_core.py): a strict total order on keys. */
module EvidenceOrder {
  import opened Common
  import opened ContextMemory

  /** What the sort key depends on besides the item itself. */
  datatype Ranking = Ranking(latest: Option<Id>, referenced: set<Id>)

  datatype Key = Key(
    noMismatch: bool, isFresh: bool, latest: bool, referenced: bool, structured: bool,
    collectedAt: string, id: Id)

  function KeyOf(r: Ranking, item: Item): Key {
    Key(!item.uidStatus.Mismatch?, item.freshness.Fresh?, r.latest == Some(item.id), item.id in r.referenced,
        !item.kind.AlertPayload? && !item.kind.CurrentLogs? && !item.kind.PreviousLogs?,
        if item.collectedAt.Some? then item.collectedAt.value else "", item.id)
  }

  /** Strings compare by code point, a proper prefix first. */
  predicate TextLess(a: string, b: string) {
    if a == [] then b != []
    else b != [] && (a[0] < b[0] || (a[0] == b[0] && TextLess(a[1..], b[1..])))
  }

  lemma {:induction false} TextLessTotal(a: string, b: string)
    ensures a == b || TextLess(a, b) || TextLess(b, a)
    ensures !(TextLess(a, b) && TextLess(b, a))
    ensures !TextLess(a, a)
  {
    if a != [] {
      TextLessTotal(a[1..], if b == [] then [] else b[1..]);
      if b != [] && a[0] == b[0] && a[1..] == b[1..] {
        assert a == [a[0]] + a[1..] && b == [b[0]] + b[1..];
      }
    }
  }

  lemma {:induction false} TextLessTransitive(a: string, b: string, c: string)
    requires TextLess(a, b) && TextLess(b, c)
    ensures TextLess(a, c)
  {
    if a != [] && a[0] == b[0] && b[0] == c[0] {
      TextLessTransitive(a[1..], b[1..], c[1..]);
    }
  }

  /** Keys compare as tuples, false before true. */
  predicate KeyLess(a: Key, b: Key) {
    if a.noMismatch != b.noMismatch then b.noMismatch
    else if a.isFresh != b.isFresh then b.isFresh
    else if a.latest != b.latest then b.latest
    else if a.referenced != b.referenced then b.referenced
    else if a.structured != b.structured then b.structured
    else if a.collectedAt != b.collectedAt then TextLess(a.collectedAt, b.collectedAt)
    else TextLess(a.id, b.id)
  }

  lemma KeyLessTotal(a: Key, b: Key)
    ensures a == b || KeyLess(a, b) || KeyLess(b, a)
    ensures !(KeyLess(a, b) && KeyLess(b, a))
  {
    TextLessTotal(a.collectedAt, b.collectedAt);
    TextLessTotal(a.id, b.id);
  }

  lemma KeyLessTransitive(a: Key, b: Key, c: Key)
    requires KeyLess(a, b) && KeyLess(b, c)
    ensures KeyLess(a, c)
  {
    TextLessTotal(a.collectedAt, b.collectedAt);
    if TextLess(a.collectedAt, b.collectedAt) && TextLess(b.collectedAt, c.collectedAt) {
      TextLessTransitive(a.collectedAt, b.collectedAt, c.collectedAt);
      TextLessTotal(a.collectedAt, c.collectedAt);
    }
    if TextLess(a.id, b.id) && TextLess(b.id, c.id) {
      TextLessTransitive(a.id, b.id, c.id);
    }
  }

  /** Stable descending sort. */
  function Insert(r: Ranking, x: Item, sorted: seq<Item>): (s: seq<Item>)
    ensures multiset(s) == multiset(sorted) + multiset{x}
  {
    if sorted == [] then [x]
    else if !KeyLess(KeyOf(r, x), KeyOf(r, sorted[0])) then [x] + sorted
    else
      assert sorted == [sorted[0]] + sorted[1..];
      [sorted[0]] + Insert(r, x, sorted[1..])
  }

  function SortDescending(r: Ranking, items: seq<Item>): (s: seq<Item>)
    ensures multiset(s) == multiset(items)
  {
    if items == [] then []
    else
      assert items == [items[0]] + items[1..];
      Insert(r, items[0], SortDescending(r, items[1..]))
  }

  predicate DistinctIds(items: seq<Item>) {
    forall i, j | 0 <= i < j < |items| :: items[i].id != items[j].id
  }

  /** Every element comes strictly before all later ones. */
  ghost predicate Descending(r: Ranking, s: seq<Item>) {
    forall i, j | 0 <= i < j < |s| :: KeyLess(KeyOf(r, s[j]), KeyOf(r, s[i]))
  }

  ghost predicate FreshId(x: Item, items: seq<Item>) { forall y | y in items :: y.id != x.id }

  lemma {:induction false} InsertDescending(r: Ranking, x: Item, sorted: seq<Item>)
    requires Descending(r, sorted) && FreshId(x, sorted)
    ensures Descending(r, Insert(r, x, sorted))
  {
    var s := Insert(r, x, sorted);
    if sorted != [] {
      var head, kx := sorted[0], KeyOf(r, x);
      KeyLessTotal(kx, KeyOf(r, head));
      if KeyLess(kx, KeyOf(r, head)) {
        InsertDescending(r, x, sorted[1..]);
        var rest := Insert(r, x, sorted[1..]);
        forall j | 0 <= j < |rest| ensures KeyLess(KeyOf(r, rest[j]), KeyOf(r, head)) {
          assert rest[j] in multiset(rest);
          if rest[j] != x {
            assert rest[j] in sorted[1..];
          }
        }
      } else {
        forall j | 0 <= j < |sorted| ensures KeyLess(KeyOf(r, sorted[j]), kx) {
          if j > 0 {
            KeyLessTransitive(KeyOf(r, sorted[j]), KeyOf(r, head), kx);
          }
        }
      }
    }
  }

  lemma {:induction false} SortIsDescending(r: Ranking, items: seq<Item>)
    requires DistinctIds(items)
    ensures Descending(r, SortDescending(r, items))
  {
    if items != [] {
      SortIsDescending(r, items[1..]);
      var rest := SortDescending(r, items[1..]);
      forall y | y in rest ensures y.id != items[0].id {
        assert y in multiset(rest);
        assert y in items[1..];
      }
      InsertDescending(r, items[0], rest);
    }
  }

  /** One of two properties ranks first: whoever lacks it comes after whoever has it. */
  predicate Ranks(first: bool, second: bool) { second ==> first }

  /**
   * Of two items the earlier one is, in this order: not of another uid, fresh, the latest tool result,
   * referenced by the last steps, structured, collected later by its text, and greater by id; a later
   * criterion only counts when the earlier ones tie.
   */
  lemma SortRanks(r: Ranking, items: seq<Item>, i: nat, j: nat)
    requires DistinctIds(items) && i < j < |SortDescending(r, items)|
    ensures var a, b := SortDescending(r, items)[i], SortDescending(r, items)[j];
            var textA, textB := if a.collectedAt.Some? then a.collectedAt.value else "",
                                if b.collectedAt.Some? then b.collectedAt.value else "";
            && Ranks(!a.uidStatus.Mismatch?, !b.uidStatus.Mismatch?)
            && (a.uidStatus.Mismatch? == b.uidStatus.Mismatch? ==>
                  && Ranks(a.freshness.Fresh?, b.freshness.Fresh?)
                  && (a.freshness.Fresh? == b.freshness.Fresh? ==>
                        && Ranks(r.latest == Some(a.id), r.latest == Some(b.id))
                        && ((r.latest == Some(a.id)) == (r.latest == Some(b.id)) ==>
                              && Ranks(a.id in r.referenced, b.id in r.referenced)
                              && ((a.id in r.referenced) == (b.id in r.referenced) ==>
                                    && Ranks(Structured(a.kind), Structured(b.kind))
                                    && (Structured(a.kind) == Structured(b.kind) ==>
                                          TextLess(textB, textA) || (textA == textB && TextLess(b.id, a.id)))))))
  {
    SortIsDescending(r, items);
  }

  predicate Structured(kind: EvidenceType) { kind !in {AlertPayload, CurrentLogs, PreviousLogs} }

  ghost predicate SameElements(a: seq<Item>, b: seq<Item>) { forall x :: x in a <==> x in b }

  lemma {:induction false} DescendingUnique(r: Ranking, a: seq<Item>, b: seq<Item>)
    requires Descending(r, a) && Descending(r, b) && SameElements(a, b)
    ensures a == b
  {
    assert b != [] ==> b[0] in a;
    if a != [] {
      assert a[0] in b;
      KeyLessTotal(KeyOf(r, a[0]), KeyOf(r, b[0]));
      assert a[0] == b[0];
      forall x ensures x in a[1..] <==> x in b[1..] {
        KeyLessTotal(KeyOf(r, x), KeyOf(r, a[0]));
        if x in a[1..] {
          assert x in b;
          assert x != b[0];
        }
        if x in b[1..] {
          assert x in a;
          assert x != a[0];
        }
      }
      DescendingUnique(r, a[1..], b[1..]);
    }
  }

  /** The sorted list depends only on which items there are, not on the order they arrived in. */
  lemma SortIsOrderIndependent(r: Ranking, a: seq<Item>, b: seq<Item>)
    requires DistinctIds(a) && DistinctIds(b) && SameElements(a, b)
    ensures SortDescending(r, a) == SortDescending(r, b)
  {
    SortIsDescending(r, a);
    SortIsDescending(r, b);
    var s, t := SortDescending(r, a), SortDescending(r, b);
    forall x ensures x in s <==> x in t {
      assert x in multiset(s) <==> x in a;
      assert x in multiset(t) <==> x in b;
    }
    DescendingUnique(r, s, t);
  }
}
