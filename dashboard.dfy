/** What the dashboard (src/pages/DashboardPage.tsx) derives from the store:
    which panel shows, the error it prints, the budget blocks and the
    per-category breakdown. */
module Dashboard {
  import opened Wrappers
  import opened Domain
  import Seqs
  import Store

  /** A string JavaScript treats as true: present and non-empty. */
  predicate Truthy(s: Option<string>) {
    s.Some? && s.value != ""
  }

  /** `isLoadingCritical`: the spinner waits only while both analytics and
      statistics are loading. */
  predicate IsLoadingCritical(s: Store.AppState) {
    s.loading.analytics && s.loading.statistics
  }

  /** `hasError`: a statistics error counts only while there are no statistics. */
  predicate HasError(s: Store.AppState) {
    Truthy(s.errors.budget) || Truthy(s.errors.analytics)
      || (Truthy(s.errors.statistics) && s.statistics.None?)
  }

  /** `errors.budget || errors.analytics || errors.statistics`: the first
      truthy message, else the statistics entry as it stands. */
  function ShownError(s: Store.AppState): (m: Option<string>)
    ensures Truthy(s.errors.budget) ==> m == s.errors.budget
    ensures !Truthy(s.errors.budget) && Truthy(s.errors.analytics) ==> m == s.errors.analytics
    ensures !Truthy(s.errors.budget) && !Truthy(s.errors.analytics) ==> m == s.errors.statistics
  {
    if Truthy(s.errors.budget) then s.errors.budget
    else if Truthy(s.errors.analytics) then s.errors.analytics
    else s.errors.statistics
  }

  /** Whenever the error panel shows, it shows a non-empty message. */
  lemma ErrorPanelHasMessage(s: Store.AppState)
    requires HasError(s)
    ensures Truthy(ShownError(s))
  {
  }

  /** `budgetEmpty`: there is a budget and it carries the `empty` key. */
  predicate BudgetEmpty(s: Store.AppState) {
    s.budget.Some? && s.budget.value.HasEmptyKey()
  }

  /** `statistics.by_category` kept where `total_amount > 0`; `[]` without
      statistics or without a category array. */
  function CategoryStats(stats: Option<StatisticsResponse>): (cs: seq<CategoryStat>)
    ensures stats.None? || stats.value.by_category.None? ==> cs == []
    ensures stats.Some? && stats.value.by_category.Some? ==>
      forall c :: c in cs <==> c in stats.value.by_category.value && c.total_amount > 0.0
    ensures forall i :: 0 <= i < |cs| ==> cs[i].total_amount > 0.0
  {
    match stats
    case None => []
    case Some(r) =>
      match r.by_category
      case None => []
      case Some(all) =>
        var p := (c: CategoryStat) => c.total_amount > 0.0;
        Seqs.FilterMembership(all, p);
        var cs := Seqs.Filter(all, p);
        assert forall i :: 0 <= i < |cs| ==> cs[i] in cs;
        cs
  }

  /** The kept categories appear in the order the server sent them. */
  lemma CategoryStatsKeepOrder(r: StatisticsResponse, xs: seq<CategoryStat>, ys: seq<CategoryStat>)
    requires r.by_category == Some(xs + ys)
    ensures CategoryStats(Some(r))
         == CategoryStats(Some(r.(by_category := Some(xs)))) + CategoryStats(Some(r.(by_category := Some(ys))))
  {
    Seqs.FilterAppend(xs, ys, (c: CategoryStat) => c.total_amount > 0.0);
  }

  function Amounts(cs: seq<CategoryStat>): seq<real> {
    if cs == [] then [] else [cs[0].total_amount] + Amounts(cs[1..])
  }

  /** `totalCategoryAmount`: the `reduce` over the kept categories (their
      amounts are all positive, so `|| 0` never applies). */
  function TotalCategoryAmount(cs: seq<CategoryStat>): real {
    Seqs.Sum(Amounts(cs))
  }

  /** The per-item percentage: 0 when the total is 0. */
  function Percentage(c: CategoryStat, total: real): real {
    if total > 0.0 then c.total_amount / total * 100.0 else 0.0
  }

  function Percentages(cs: seq<CategoryStat>, total: real): seq<real> {
    if cs == [] then [] else [Percentage(cs[0], total)] + Percentages(cs[1..], total)
  }

  lemma {:induction false} PercentagesScale(cs: seq<CategoryStat>, total: real)
    requires total > 0.0
    ensures Seqs.Sum(Percentages(cs, total)) == Seqs.Sum(Amounts(cs)) / total * 100.0
  {
    if cs != [] {
      PercentagesScale(cs[1..], total);
      var a := cs[0].total_amount;
      var rest := Seqs.Sum(Amounts(cs[1..]));
      assert Amounts(cs)[1..] == Amounts(cs[1..]);
      assert Percentages(cs, total)[1..] == Percentages(cs[1..], total);
      assert a / total * 100.0 + rest / total * 100.0 == (a + rest) / total * 100.0;
    }
  }

  lemma {:induction false} AmountsPositive(cs: seq<CategoryStat>)
    requires forall i :: 0 <= i < |cs| ==> cs[i].total_amount > 0.0
    ensures |Amounts(cs)| == |cs|
    ensures forall i :: 0 <= i < |cs| ==> Amounts(cs)[i] > 0.0
  {
    if cs != [] {
      AmountsPositive(cs[1..]);
    }
  }

  /** Whenever the breakdown is shown, its total is positive and the
      percentages of its items add up to exactly 100; with nothing kept the
      total is 0. */
  lemma BreakdownAddsUp(stats: Option<StatisticsResponse>)
    ensures var cs := CategoryStats(stats);
      && (cs == [] ==> TotalCategoryAmount(cs) == 0.0)
      && (cs != [] ==> TotalCategoryAmount(cs) > 0.0)
      && (cs != [] ==> Seqs.Sum(Percentages(cs, TotalCategoryAmount(cs))) == 100.0)
  {
    var cs := CategoryStats(stats);
    AmountsPositive(cs);
    Seqs.SumPositive(Amounts(cs));
    if cs != [] {
      var t := TotalCategoryAmount(cs);
      PercentagesScale(cs, t);
      assert t / t == 1.0;
    }
  }

  /** The page the dashboard renders. */
  datatype View =
    | Spinner
    | ErrorPanel(message: Option<string>)
    | Overview(budgetLoading: bool, summary: Option<BudgetStatus>, emptyNotice: bool,
               showChart: bool, breakdown: seq<CategoryStat>, total: real)

  /** The render of `DashboardPage` for a store state. */
  function Render(s: Store.AppState): (v: View)
    ensures v.Spinner? <==> IsLoadingCritical(s)
    ensures v.ErrorPanel? <==> !IsLoadingCritical(s) && HasError(s)
    ensures v.ErrorPanel? ==> Truthy(v.message)
    ensures v.Overview? ==> (v.summary.Some? <==> !s.loading.budget && s.budget.Some? && s.budget.value.Status?)
    ensures v.Overview? && v.summary.Some? ==> s.budget == Some(Status(v.summary.value))
    ensures v.Overview? ==> (v.emptyNotice <==> !s.loading.budget && BudgetEmpty(s))
    ensures v.Overview? ==> !(v.summary.Some? && v.emptyNotice)
    ensures v.Overview? ==> v.breakdown == CategoryStats(s.statistics)
  {
    if IsLoadingCritical(s) then Spinner
    else if HasError(s) then ErrorPanel(ShownError(s))
    else
      var cs := CategoryStats(s.statistics);
      Overview(
        s.loading.budget,
        if !s.loading.budget && s.budget.Some? && !s.budget.value.HasEmptyKey() then Some(s.budget.value.status) else None,
        !s.loading.budget && BudgetEmpty(s),
        |s.analytics| > 0,
        cs,
        TotalCategoryAmount(cs))
  }
}
