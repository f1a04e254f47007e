/** The list pipeline of the expenses page (src/pages/ExpensesPage.tsx):
    identity for display, the period filter, the date sort, pagination by
    20 and the five-button page strip. */
module ExpensesPage {
  import opened Wrappers
  import opened Domain
  import Seqs
  import Store

  const ItemsPerPage: int := 20

  /** `getExpenseId`: `ID` when truthy, else `id` when truthy, else 0. */
  function ExpenseId(e: Expense): (k: int)
    ensures e.ID.Some? && e.ID.value != 0 ==> k == e.ID.value
    ensures (e.ID.None? || e.ID.value == 0) && e.id.Some? && e.id.value != 0 ==> k == e.id.value
    ensures (e.ID.None? || e.ID.value == 0) && (e.id.None? || e.id.value == 0) ==> k == 0
  {
    if e.ID.Some? && e.ID.value != 0 then e.ID.value
    else if e.id.Some? && e.id.value != 0 then e.id.value
    else 0
  }

  /** The page's truthiness rule and the store's key-presence rule agree on
      every expense whose store identity is a non-zero number, and whenever
      `ID` is absent; they part only when `ID` is present and 0. */
  lemma IdentityRulesAgree(e: Expense)
    ensures Store.StoreId(e).Some? && Store.StoreId(e).value != 0 ==> ExpenseId(e) == Store.StoreId(e).value
    ensures ExpenseId(e) != 0 && e.ID != Some(0) ==> Store.StoreId(e) == Some(ExpenseId(e))
  {
  }

  /** An expense the two rules resolve differently: `{ID: 0, id: 5}`. */
  lemma IdentityRulesDiffer()
    ensures var e := Expense(Some(0), Some(5), 1.0, "", 0, 0, None, None);
      Store.StoreId(e) == Some(0) && ExpenseId(e) == 5
  {
  }

  datatype Period = All | Today | Week | Month | Year

  /** The inclusive date-range test of the filter. */
  predicate InRange(start: int, end: int, e: Expense) {
    start <= e.date <= end
  }

  /** The period filter: `All` keeps the list; any other period keeps the
      expenses dated within `[start, end]`, the range `getPeriodDates`
      computes for it (given here as time values). */
  function FilterByPeriod(xs: seq<Expense>, period: Period, start: int, end: int): (r: seq<Expense>)
    ensures period == All ==> r == xs
    ensures period != All ==> forall x :: x in r <==> x in xs && start <= x.date <= end
    ensures |r| <= |xs|
  {
    if period == All then xs
    else
      var p := (e: Expense) => InRange(start, end, e);
      Seqs.FilterMembership(xs, p);
      Seqs.Filter(xs, p)
  }

  /** The filter keeps the relative order: filtering a concatenation is
      concatenating the filtered parts. */
  lemma FilterByPeriodKeepsOrder(xs: seq<Expense>, ys: seq<Expense>, period: Period, start: int, end: int)
    ensures FilterByPeriod(xs + ys, period, start, end)
         == FilterByPeriod(xs, period, start, end) + FilterByPeriod(ys, period, start, end)
  {
    if period != All {
      Seqs.FilterAppend(xs, ys, (e: Expense) => InRange(start, end, e));
    }
  }

  datatype SortOrder = Newest | Oldest

  /** `CreatedAt ? new Date(CreatedAt).getTime() : 0`. */
  function CreatedKey(e: Expense): int {
    match e.createdAt
    case Some(t) => t
    case None => 0
  }

  /** The tie-break keys of the source comparator for two same-date expenses:
      the `CreatedAt` times when both are non-zero, else the display ids. */
  function TieKeys(a: Expense, b: Expense): (int, int) {
    var ca := CreatedKey(a);
    var cb := CreatedKey(b);
    if ca != 0 && cb != 0 then (ca, cb) else (ExpenseId(a), ExpenseId(b))
  }

  /** The comparator passed to `filtered.sort`, as written: negative puts
      `a` first. */
  function CompareAsWritten(a: Expense, b: Expense, order: SortOrder): int {
    var keys := if a.date == b.date then TieKeys(a, b) else (a.date, b.date);
    if order == Newest then keys.1 - keys.0 else keys.0 - keys.1
  }

  /** On different dates the comparator orders by date: later first for
      `Newest`, earlier first for `Oldest`. On equal dates it compares
      `CreatedAt` only when both are non-zero, and the ids otherwise. */
  lemma AsWrittenOrdering(a: Expense, b: Expense, order: SortOrder)
    ensures a.date != b.date && order == Newest ==> (CompareAsWritten(a, b, order) < 0 <==> a.date > b.date)
    ensures a.date != b.date && order == Oldest ==> (CompareAsWritten(a, b, order) < 0 <==> a.date < b.date)
    ensures a.date == b.date && CreatedKey(a) != 0 && CreatedKey(b) != 0 ==>
      CompareAsWritten(a, b, order) == (if order == Newest then CreatedKey(b) - CreatedKey(a) else CreatedKey(a) - CreatedKey(b))
    ensures a.date == b.date && (CreatedKey(a) == 0 || CreatedKey(b) == 0) ==>
      CompareAsWritten(a, b, order) == (if order == Newest then ExpenseId(b) - ExpenseId(a) else ExpenseId(a) - ExpenseId(b))
    ensures CompareAsWritten(a, b, order) == -CompareAsWritten(b, a, order)
  {
  }

  /** The source comparator is not transitive once a date holds expenses
      with and without `CreatedAt`: here `a` precedes `c`, `c` precedes `b`
      and `b` precedes `a`, so no order satisfies it and the result of
      `sort` is left to the engine. */
  lemma AsWrittenNotTransitive()
    ensures var a := Expense(Some(3), None, 1.0, "", 100, 0, None, Some(1));
            var b := Expense(Some(2), None, 1.0, "", 100, 0, None, None);
            var c := Expense(Some(1), None, 1.0, "", 100, 0, None, Some(2));
      && CompareAsWritten(a, c, Oldest) < 0
      && CompareAsWritten(c, b, Oldest) < 0
      && CompareAsWritten(b, a, Oldest) < 0
  {
  }

  /** The display id as a last key, used only for expenses without
      `CreatedAt`: those with one tie on equal times, as in the source. */
  function TieId(e: Expense): int {
    if CreatedKey(e) == 0 then ExpenseId(e) else 0
  }

  /** The corrected comparator: lexicographic on (date, `CreatedAt` or 0,
      display id when there is no `CreatedAt`), in the chosen direction. */
  function Compare(a: Expense, b: Expense, order: SortOrder): int {
    var d := if a.date != b.date then a.date - b.date
             else if CreatedKey(a) != CreatedKey(b) then CreatedKey(a) - CreatedKey(b)
             else TieId(a) - TieId(b);
    if order == Newest then -d else d
  }

  /** The corrected comparator is a total preorder, so a sort can honour it. */
  lemma CompareIsTotalPreorder(a: Expense, b: Expense, c: Expense, order: SortOrder)
    ensures Compare(a, b, order) == -Compare(b, a, order)
    ensures Compare(a, b, order) <= 0 && Compare(b, c, order) <= 0 ==> Compare(a, c, order) <= 0
  {
  }

  /** The corrected comparator returns what the source's returns on every
      pair except a same-date pair where only one expense has `CreatedAt`. */
  lemma CompareRefinesAsWritten(a: Expense, b: Expense, order: SortOrder)
    requires a.date != b.date || (CreatedKey(a) != 0) == (CreatedKey(b) != 0)
    ensures Compare(a, b, order) == CompareAsWritten(a, b, order)
  {
  }

  /** Same-date expenses with equal `CreatedAt` tie, so the sort keeps them
      in the order it was given, whatever their ids. */
  lemma EqualCreatedKeepsOrder()
    ensures var x := Expense(Some(2), None, 1.0, "", 100, 0, None, Some(5));
            var y := Expense(Some(1), None, 1.0, "", 100, 0, None, Some(5));
      && CompareAsWritten(x, y, Oldest) == 0
      && Compare(x, y, Oldest) == 0
      && Sort([x, y], Oldest) == [x, y]
  {
    var x := Expense(Some(2), None, 1.0, "", 100, 0, None, Some(5));
    var y := Expense(Some(1), None, 1.0, "", 100, 0, None, Some(5));
    assert [x, y][..1] == [x];
    assert Sort([x], Oldest) == [x] by {
      assert [x][..0] == [];
    }
  }

  predicate SortedBy(xs: seq<Expense>, order: SortOrder) {
    forall i, j :: 0 <= i < j < |xs| ==> Compare(xs[i], xs[j], order) <= 0
  }

  /** Place `x` before the first element that must follow it. */
  function Insert(x: Expense, xs: seq<Expense>, order: SortOrder): (r: seq<Expense>)
    ensures multiset(r) == multiset(xs) + multiset{x}
  {
    if xs == [] then [x]
    else if Compare(xs[0], x, order) > 0 then [x] + xs
    else
      assert xs == [xs[0]] + xs[1..];
      [xs[0]] + Insert(x, xs[1..], order)
  }

  /** A sorted list stays sorted under a new head that precedes all of it. */
  lemma ConsSorted(h: Expense, xs: seq<Expense>, order: SortOrder)
    requires SortedBy(xs, order)
    requires forall k :: 0 <= k < |xs| ==> Compare(h, xs[k], order) <= 0
    ensures SortedBy([h] + xs, order)
  {
    var r := [h] + xs;
    assert forall k :: 1 <= k < |r| ==> r[k] == xs[k - 1];
  }

  /** The head of a sorted list precedes every element of its tail. */
  lemma HeadPrecedes(xs: seq<Expense>, order: SortOrder)
    requires SortedBy(xs, order) && xs != []
    ensures forall y :: y in xs[1..] ==> Compare(xs[0], y, order) <= 0
  {
    forall y | y in xs[1..] ensures Compare(xs[0], y, order) <= 0 {
      var k :| 0 <= k < |xs[1..]| && xs[1..][k] == y;
      assert xs[k + 1] == y;
    }
  }

  /** Inserting into a sorted list keeps it sorted. */
  lemma {:induction false} InsertSorted(x: Expense, xs: seq<Expense>, order: SortOrder)
    requires SortedBy(xs, order)
    ensures SortedBy(Insert(x, xs, order), order)
  {
    if xs == [] {
    } else if Compare(xs[0], x, order) > 0 {
      forall k | 0 <= k < |xs| ensures Compare(x, xs[k], order) <= 0 {
        CompareIsTotalPreorder(x, xs[0], xs[k], order);
      }
      ConsSorted(x, xs, order);
    } else {
      var rest := Insert(x, xs[1..], order);
      InsertSorted(x, xs[1..], order);
      HeadPrecedes(xs, order);
      forall k | 0 <= k < |rest| ensures Compare(xs[0], rest[k], order) <= 0 {
        assert rest[k] in multiset(rest);
        assert rest[k] == x || rest[k] in xs[1..];
      }
      assert SortedBy(xs[1..], order) by {
        assert forall i :: 0 <= i < |xs[1..]| ==> xs[1..][i] == xs[i + 1];
      }
      ConsSorted(xs[0], rest, order);
    }
  }

  /** `sort` with the corrected comparator, as a stable insertion sort. */
  function Sort(xs: seq<Expense>, order: SortOrder): (r: seq<Expense>)
    ensures multiset(r) == multiset(xs)
  {
    if xs == [] then []
    else
      assert xs == xs[..|xs| - 1] + [xs[|xs| - 1]];
      Insert(xs[|xs| - 1], Sort(xs[..|xs| - 1], order), order)
  }

  /** The sort's result is ordered by the comparator. */
  lemma {:induction false} SortSorted(xs: seq<Expense>, order: SortOrder)
    ensures SortedBy(Sort(xs, order), order)
  {
    if xs != [] {
      SortSorted(xs[..|xs| - 1], order);
      InsertSorted(xs[|xs| - 1], Sort(xs[..|xs| - 1], order), order);
    }
  }

  /** A sorted list is ordered by date: later first for `Newest`, earlier
      first for `Oldest`. */
  lemma SortedByDate(xs: seq<Expense>, order: SortOrder, i: int, j: int)
    requires SortedBy(xs, order) && 0 <= i < j < |xs|
    ensures order == Newest ==> xs[i].date >= xs[j].date
    ensures order == Oldest ==> xs[i].date <= xs[j].date
  {
    assert Compare(xs[i], xs[j], order) <= 0;
  }

  /** `filteredAndSortedExpenses`: a permutation of the period-filtered list,
      sorted by the comparator. */
  function FilteredAndSorted(xs: seq<Expense>, period: Period, start: int, end: int, order: SortOrder): (r: seq<Expense>)
    ensures multiset(r) == multiset(FilterByPeriod(xs, period, start, end))
    ensures SortedBy(r, order)
  {
    SortSorted(FilterByPeriod(xs, period, start, end), order);
    Sort(FilterByPeriod(xs, period, start, end), order)
  }

  /** `Math.ceil(n / ITEMS_PER_PAGE)`. */
  function TotalPages(n: nat): (t: nat)
    ensures t * ItemsPerPage >= n
    ensures t > 0 ==> (t - 1) * ItemsPerPage < n
    ensures t == 0 <==> n == 0
  {
    (n + ItemsPerPage - 1) / ItemsPerPage
  }

  /** `Array.prototype.slice(start, end)`: negative bounds count from the end,
      bounds are clamped to the length, and an empty range gives `[]`. */
  function JsSlice<T>(xs: seq<T>, start: int, end: int): (r: seq<T>)
    ensures 0 <= start <= end ==>
      r == xs[(if start < |xs| then start else |xs|)..(if end < |xs| then end else |xs|)]
  {
    var n := |xs|;
    var from := if start < 0 then (if n + start < 0 then 0 else n + start) else (if start < n then start else n);
    var to := if end < 0 then (if n + end < 0 then 0 else n + end) else (if end < n then end else n);
    if to <= from then [] else xs[from..to]
  }

  function Min(a: int, b: int): int {
    if a < b then a else b
  }

  function Max(a: int, b: int): int {
    if a < b then b else a
  }

  /** `paginatedExpenses` for `currentPage`. */
  function PageItems(xs: seq<Expense>, page: int): seq<Expense> {
    var startIndex := (page - 1) * ItemsPerPage;
    JsSlice(xs, startIndex, startIndex + ItemsPerPage)
  }

  /** Page `p` (from 1) shows `xs[(p-1)*20 .. min((p-1)*20+20, n))`: at most
      20 items, none past the end, and at least one on every page up to
      `totalPages`. */
  lemma PageContents(xs: seq<Expense>, page: int)
    requires page >= 1
    ensures var s := (page - 1) * ItemsPerPage;
      && |PageItems(xs, page)| <= ItemsPerPage
      && (s < |xs| ==> PageItems(xs, page) == xs[s..Min(s + ItemsPerPage, |xs|)])
      && (s >= |xs| ==> PageItems(xs, page) == [])
      && (page <= TotalPages(|xs|) ==> |PageItems(xs, page)| > 0)
  {
  }

  /** Pages `1..k` in a row. */
  function FirstPages(xs: seq<Expense>, k: nat): seq<Expense> {
    if k == 0 then [] else FirstPages(xs, k - 1) + PageItems(xs, k)
  }

  lemma {:induction false} FirstPagesArePrefix(xs: seq<Expense>, k: nat)
    ensures FirstPages(xs, k) == xs[..Min(k * ItemsPerPage, |xs|)]
  {
    if k > 0 {
      FirstPagesArePrefix(xs, k - 1);
      PageContents(xs, k);
      var s := (k - 1) * ItemsPerPage;
      assert k * ItemsPerPage == s + ItemsPerPage;
      if s < |xs| {
        var e := Min(s + ItemsPerPage, |xs|);
        assert FirstPages(xs, k) == xs[..s] + xs[s..e];
        assert xs[..s] + xs[s..e] == xs[..e];
      } else {
        assert PageItems(xs, k) == [];
        assert Min(s, |xs|) == |xs| == Min(s + ItemsPerPage, |xs|);
      }
    }
  }

  /** The pages tile the list: pages 1 to `totalPages`, in a row, are the
      whole list, each item exactly once and in order. */
  lemma PagesTileList(xs: seq<Expense>)
    ensures FirstPages(xs, TotalPages(|xs|)) == xs
  {
    FirstPagesArePrefix(xs, TotalPages(|xs|));
  }

  /** The caption `startIndex+1 – min(endIndex, n) из n`. */
  datatype Caption = Caption(first: int, last: int, total: nat)

  function RangeCaption(page: int, n: nat): (c: Caption) {
    var startIndex := (page - 1) * ItemsPerPage;
    Caption(startIndex + 1, Min(startIndex + ItemsPerPage, n), n)
  }

  /** On any page within range the caption counts exactly the items shown. */
  lemma RangeCaptionCountsPage(xs: seq<Expense>, page: int)
    requires 1 <= page <= TotalPages(|xs|)
    ensures var c := RangeCaption(page, |xs|);
      1 <= c.first <= c.last <= c.total && c.last - c.first + 1 == |PageItems(xs, page)|
  {
    PageContents(xs, page);
  }

  /** Deleting an expense does not move the current page, so the page can
      lie past the end: it then shows no item while the caption, which only
      requires a non-empty list, reads `first-last` with `first > last`. */
  lemma CaptionPastTheEnd(xs: seq<Expense>, page: int)
    requires |xs| > 0 && page > TotalPages(|xs|)
    ensures PageItems(xs, page) == []
    ensures RangeCaption(page, |xs|).first > RangeCaption(page, |xs|).last
  {
    PageContents(xs, page);
  }

  /** The single item of page 2 of 21 deleted: 20 remain, one page, and
      the caption on page 2 reads "21-20 of 20". */
  lemma DeleteLastOnPageTwo(xs: seq<Expense>)
    requires |xs| == 20
    ensures TotalPages(|xs|) == 1 && PageItems(xs, 2) == []
    ensures RangeCaption(2, |xs|) == Caption(21, 20, 20)
  {
    CaptionPastTheEnd(xs, 2);
  }

  /** The current page kept within `[1, totalPages]`, as the strip's own
      buttons keep it. */
  function ShownPage(page: int, n: nat): (p: int)
    ensures n > 0 ==> 1 <= p <= TotalPages(n)
    ensures 1 <= page <= TotalPages(n) ==> p == page
  {
    Max(1, Min(page, TotalPages(n)))
  }

  /** With the page clamped, a non-empty list always shows a page whose
      caption counts exactly the items shown. */
  lemma ShownCaptionCountsPage(xs: seq<Expense>, page: int)
    requires |xs| > 0
    ensures var p := ShownPage(page, |xs|);
      var c := RangeCaption(p, |xs|);
      && 1 <= c.first <= c.last <= c.total
      && c.last - c.first + 1 == |PageItems(xs, p)|
      && PageItems(xs, p) != []
  {
    RangeCaptionCountsPage(xs, ShownPage(page, |xs|));
  }

  /** The page numbers on the strip: `min(5, totalPages)` buttons. */
  function PageWindow(current: int, total: nat): (w: seq<int>) {
    seq(Min(5, total), i requires 0 <= i < Min(5, total) =>
      if total <= 5 then i + 1
      else if current <= 3 then i + 1
      else if current >= total - 2 then total - 4 + i
      else current - 2 + i)
  }

  /** For any current page the strip shows `min(5, totalPages)` consecutive
      page numbers, all within `[1, totalPages]`, and the current page among
      them whenever it is itself in range. */
  lemma PageWindowProperties(current: int, total: nat)
    ensures |PageWindow(current, total)| == Min(5, total)
    ensures forall i :: 0 <= i < |PageWindow(current, total)| ==> 1 <= PageWindow(current, total)[i] <= total
    ensures forall i :: 0 < i < |PageWindow(current, total)| ==>
      PageWindow(current, total)[i] == PageWindow(current, total)[i - 1] + 1
    ensures 1 <= current <= total ==> current in PageWindow(current, total)
  {
    var w := PageWindow(current, total);
    if 1 <= current <= total {
      var i := if total <= 5 || current <= 3 then current - 1
               else if current >= total - 2 then current - total + 4
               else 2;
      assert w[i] == current;
    }
  }

  /** The "back" button: `Math.max(1, prev - 1)`. */
  function PrevPage(p: int): (q: int) {
    Max(1, p - 1)
  }

  /** The "forward" button: `Math.min(totalPages, prev + 1)`. */
  function NextPage(p: int, total: int): (q: int) {
    Min(total, p + 1)
  }

  /** From a page in range, both buttons stay in range and move by at most
      one; each stays put exactly at its end of the range. */
  lemma PrevNextStayInRange(p: int, total: int)
    requires 1 <= p <= total
    ensures 1 <= PrevPage(p) <= p && p - PrevPage(p) <= 1
    ensures p <= NextPage(p, total) <= total && NextPage(p, total) - p <= 1
    ensures PrevPage(p) == p <==> p == 1
    ensures NextPage(p, total) == p <==> p == total
  {
  }
}
