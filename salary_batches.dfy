/** The saved payout batches screen (app/salary/page.jsx): the grand total
    recomputed from a batch's items when the stored one is missing, the
    "load more" test and the newest-first order of a loaded page. */
module SalaryBatches {
  import opened Values
  import opened Seqs

  /** One user's line in a batch; only the two amounts matter here. */
  datatype BatchItem = BatchItem(finalWithBonus: Value, totalSalary: Value)

  /** A saved batch; `items` is None when the field is missing, and
      `createdAt` is the creation time in milliseconds. */
  datatype Batch = Batch(id: string, grandTotal: Value, items: Option<seq<BatchItem>>, createdAt: int)

  /** `it.finalWithBonus || it.totalSalary || 0`, then `Number`. */
  function ItemAmount(it: BatchItem): real
  {
    if Truthy(it.finalWithBonus) then Coerce(it.finalWithBonus)
    else if Truthy(it.totalSalary) then Coerce(it.totalSalary)
    else 0.0
  }

  /** `calculateGrandTotal(items)`, a missing list counting as empty. */
  function GrandTotal(items: Option<seq<BatchItem>>): real
  {
    SumOf(items.GetOr([]), ItemAmount)
  }

  /** No items, or a missing list, total 0. */
  lemma GrandTotalEmpty()
    ensures GrandTotal(None) == 0.0
    ensures GrandTotal(Some([])) == 0.0
  {
  }

  /** The grand total adds up every item's amount: it is additive over a split
      of the items, and one item totals its own amount. */
  lemma GrandTotalAdds(a: seq<BatchItem>, b: seq<BatchItem>, it: BatchItem)
    ensures GrandTotal(Some(a + b)) == GrandTotal(Some(a)) + GrandTotal(Some(b))
    ensures GrandTotal(Some([it])) == ItemAmount(it)
  {
    SumOfConcat(a, b, ItemAmount);
    SumOfConcat([], [it], ItemAmount);
    assert [] + [it] == [it];
  }

  /** The amount is the bonus-inclusive final when set, else the salary, else
      0; a final of exactly 0 is falsy and falls through to the salary. */
  lemma ItemAmountFallback(it: BatchItem, x: real)
    ensures Truthy(it.finalWithBonus) ==> ItemAmount(it) == Coerce(it.finalWithBonus)
    ensures !Truthy(it.finalWithBonus) && Truthy(it.totalSalary) ==> ItemAmount(it) == Coerce(it.totalSalary)
    ensures !Truthy(it.finalWithBonus) && !Truthy(it.totalSalary) ==> ItemAmount(it) == 0.0
    ensures ItemAmount(BatchItem(Num(0.0), Num(x))) == x
    ensures ItemAmount(BatchItem(Undefined, Undefined)) == 0.0
  {
  }

  /** `Number(b.grandTotal || calculateGrandTotal(b.items))`. */
  function DisplayedTotal(b: Batch): real
  {
    if Truthy(b.grandTotal) then Coerce(b.grandTotal) else GrandTotal(b.items)
  }

  /** A non-zero stored total is shown as it is; 0, null or a missing total is recomputed. */
  lemma DisplayedTotalFallback(b: Batch)
    ensures Truthy(b.grandTotal) ==> DisplayedTotal(b) == Coerce(b.grandTotal)
    ensures b.grandTotal == Num(0.0) || b.grandTotal == Null || b.grandTotal == Undefined
            ==> DisplayedTotal(b) == GrandTotal(b.items)
  {
  }

  const PAGE_SIZE: int := 5

  /** `hasMore = page * pageSize < total`. */
  predicate HasMore(page: int, total: int)
  {
    page * PAGE_SIZE < total
  }

  /** How many batches n pages hold. */
  function Capacity(n: int): int
  {
    n * PAGE_SIZE
  }

  /** More is offered exactly when the pages up to the current one cannot
      hold all `total` batches: every number of pages that can hold them lies
      beyond the current page. */
  lemma HasMoreMeaning(page: int, total: int)
    ensures HasMore(page, total) <==> forall n :: total <= Capacity(n) ==> page < n
  {
    if HasMore(page, total) {
      forall n | total <= Capacity(n) ensures page < n {
        assert page * PAGE_SIZE < n * PAGE_SIZE;
      }
    } else {
      assert total <= Capacity(page);
    }
  }

  function CreatedAt(b: Batch): int { b.createdAt }

  /** The batches of one loaded page, latest first; a missing list is empty. */
  function Loaded(items: Option<seq<Batch>>): (r: seq<Batch>)
    ensures multiset(r) == multiset(items.GetOr([]))
    ensures forall i, j :: 0 <= i < j < |r| ==> r[i].createdAt >= r[j].createdAt
  {
    var s := SortDesc(items.GetOr([]), CreatedAt);
    assert forall i, j :: 0 <= i < j < |s| ==> CreatedAt(s[i]) >= CreatedAt(s[j]);
    s
  }

  /** The first batch shown is the newest of the page. */
  lemma LoadedNewestFirst(items: seq<Batch>)
    requires items != []
    ensures var r := Loaded(Some(items));
      r != [] && r[0] in items && forall b :: b in items ==> b.createdAt <= r[0].createdAt
  {
    var r := Loaded(Some(items));
    assert |r| == |items| by {
      assert |multiset(r)| == |multiset(items)|;
    }
    assert r[0] in multiset(items);
    forall b | b in items ensures b.createdAt <= r[0].createdAt {
      assert b in multiset(r);
      var k :| 0 <= k < |r| && r[k] == b;
      if k > 0 {
        assert r[0].createdAt >= r[k].createdAt;
      }
    }
  }
}
