/** Sequences of store operations as a view issues them, each run on a
    freshly mounted provider. They show what the cache discipline of
    src/context/AppContext.tsx promises across calls. */
module StoreScenarios {
  import opened Wrappers
  import opened Domain
  import opened Store

  /** A first unforced load fetches; a second unforced load less than 30
      seconds after the first settled does not, and the first data stays. */
  method RepeatWithinWindow(data: seq<Expense>, other: seq<Expense>, t: int, later: int)
    returns (firstFetched: bool, secondFetched: bool, shown: seq<Expense>)
    requires 0 < t <= later < t + CacheDuration
    ensures firstFetched && !secondFetched
    ensures shown == data
  {
    var app := new AppProvider();
    firstFetched := app.LoadExpenses(false, t, Success(data), t);
    secondFetched := app.LoadExpenses(false, later, Success(other), later);
    shown := app.state.expenses;
  }

  /** Once 30 seconds have passed since the data settled, the next unforced
      load fetches again and replaces the list. */
  method RepeatAfterWindow(data: seq<Expense>, other: seq<Expense>, t: int, later: int)
    returns (secondFetched: bool, shown: seq<Expense>)
    requires 0 < t && t + CacheDuration <= later
    ensures secondFetched
    ensures shown == other
  {
    var app := new AppProvider();
    var _ := app.LoadExpenses(false, t, Success(data), t);
    secondFetched := app.LoadExpenses(false, later, Success(other), later);
    shown := app.state.expenses;
  }

  /** A forced load fetches even inside the window. */
  method ForcedReload(data: seq<Expense>, other: seq<Expense>, t: int, later: int)
    returns (secondFetched: bool, shown: seq<Expense>, stamp: Option<int>)
    requires 0 < t <= later
    ensures secondFetched
    ensures shown == other && stamp == Some(later)
  {
    var app := new AppProvider();
    var _ := app.LoadExpenses(false, t, Success(data), t);
    secondFetched := app.LoadExpenses(true, later, Success(other), later);
    shown := app.state.expenses;
    stamp := app.state.cache.expenses;
  }

  /** A forced reload that throws keeps the list and its timestamp and
      records the message (or the default one when the error has none). */
  method FailedReloadKeepsData(data: seq<Expense>, thrown: Option<string>, t: int, later: int)
    returns (shown: seq<Expense>, stamp: Option<int>, error: Option<string>, loading: bool)
    requires 0 < t <= later
    ensures shown == data && stamp == Some(t) && !loading
    ensures thrown.Some? && thrown.value != "" ==> error == thrown
    ensures thrown.None? || thrown.value == "" ==> error == Some("Ошибка загрузки расходов")
  {
    var app := new AppProvider();
    var _ := app.LoadExpenses(false, t, Success(data), t);
    var _ := app.LoadExpenses(true, later, Failure(thrown), later);
    shown := app.state.expenses;
    stamp := app.state.cache.expenses;
    error := app.state.errors.expenses;
    loading := app.state.loading.expenses;
  }

  /** After `invalidateExpenses` the next unforced load fetches, even
      inside the window. */
  method InvalidateThenLoad(data: seq<Expense>, other: seq<Expense>, t: int, later: int)
    returns (secondFetched: bool, shown: seq<Expense>)
    requires 0 < t <= later
    ensures secondFetched && shown == other
  {
    var app := new AppProvider();
    var _ := app.LoadExpenses(false, t, Success(data), t);
    app.InvalidateResource(Expenses);
    secondFetched := app.LoadExpenses(false, later, Success(other), later);
    shown := app.state.expenses;
  }

  /** An optimistic add restamps the expense cache, so an unforced load in
      the next 30 seconds does not fetch and the added item stays on top. */
  method AddThenLoad(e: Expense, other: seq<Expense>, t: int, later: int)
    returns (fetched: bool, shown: seq<Expense>)
    requires 0 < t <= later < t + CacheDuration
    ensures !fetched
    ensures shown == [e]
  {
    var app := new AppProvider();
    app.AddExpenseItem(e, t);
    fetched := app.LoadExpenses(false, later, Success(other), later);
    shown := app.state.expenses;
  }

  /** `clearAll` empties every list and makes every resource fetch again. */
  method ClearThenLoad(data: seq<RecurringExpense>, t: int, later: int)
    returns (fetched: bool)
    requires 0 < t <= later
    ensures fetched
  {
    var app := new AppProvider();
    var _ := app.LoadRecurringExpenses(false, t, Success(data), t);
    app.Clear();
    fetched := app.LoadRecurringExpenses(false, later, Success(data), later);
  }

  /** A budget load inside the window does not fetch, keeps the budget and
      leaves its loading flag off. That a cache hit turns a raised flag off
      in general is `AppProvider.LoadBudget`'s own contract. */
  method BudgetHitKeepsData(b: CurrentBudget, t: int, later: int)
    returns (fetched: bool, loading: bool, shown: Option<CurrentBudget>)
    requires 0 < t <= later < t + CacheDuration
    ensures !fetched && !loading && shown == Some(b)
  {
    var app := new AppProvider();
    var _ := app.LoadBudget(false, t, Success(b), t);
    fetched := app.LoadBudget(false, later, Success(EmptySentinel), later);
    loading := app.state.loading.budget;
    shown := app.state.budget;
  }

  /** The analytics freshness check ignores the period and the dates: asking
      for another period inside the window returns the cached points. */
  method AnalyticsIgnoresPeriod(points: seq<AnalyticsPoint>, other: seq<AnalyticsPoint>, t: int, later: int)
    returns (fetched: bool, shown: seq<AnalyticsPoint>)
    requires 0 < t <= later < t + CacheDuration
    ensures !fetched && shown == points
  {
    var app := new AppProvider();
    var _ := app.LoadAnalytics(Day, "2024-01-01", "2024-01-31", false, t, Success(points), t);
    fetched := app.LoadAnalytics(Month, "2024-02-01", "2024-02-29", false, later, Success(other), later);
    shown := app.state.analytics;
  }
}
