/** The client-side cache store (`AppProvider` in src/context/AppContext.tsx):
    one state record holding six resources, each with a value, a loading
    flag, an error message and a cache timestamp.

    The provider keeps that record with `useState` and changes it only through
    `setState(prev => ...)` updaters. Each updater is a pure function here
    (`BeginLoad`, `AddExpense`, ...); the class `AppProvider` owns the record
    and its methods apply the updaters in the order the source does. */
module Store {
  import opened Wrappers
  import opened Domain
  import Seqs

  /** `CACHE_DURATION`: 30 seconds, in milliseconds. */
  const CacheDuration: int := 30 * 1000

  datatype Resource = Expenses | Categories | Budget | Analytics | Statistics | Recurring

  /** The `loading`, `errors` and `cache` sub-records: one entry per resource. */
  datatype PerResource<T> = PerResource(expenses: T, categories: T, budget: T, analytics: T, statistics: T, recurring: T) {

    function Get(r: Resource): T {
      match r
      case Expenses => expenses
      case Categories => categories
      case Budget => budget
      case Analytics => analytics
      case Statistics => statistics
      case Recurring => recurring
    }

    /** `{ ...prev.x, [r]: v }`: only the entry of `r` changes. */
    function Set(r: Resource, v: T): (p: PerResource<T>)
      ensures p.Get(r) == v
      ensures forall q :: q != r ==> p.Get(q) == Get(q)
    {
      match r
      case Expenses => this.(expenses := v)
      case Categories => this.(categories := v)
      case Budget => this.(budget := v)
      case Analytics => this.(analytics := v)
      case Statistics => this.(statistics := v)
      case Recurring => this.(recurring := v)
    }
  }

  function Uniform<T>(v: T): (p: PerResource<T>)
    ensures forall r :: p.Get(r) == v
  {
    PerResource(v, v, v, v, v, v)
  }

  /** The value of one resource, tagged with the resource it belongs to. */
  datatype Payload =
    | ExpensesData(expenses: seq<Expense>)
    | CategoriesData(categories: seq<Category>)
    | BudgetData(budget: Option<CurrentBudget>)
    | AnalyticsData(analytics: seq<AnalyticsPoint>)
    | StatisticsData(statistics: Option<StatisticsResponse>)
    | RecurringData(recurring: seq<RecurringExpense>)
  {
    function Of(): Resource {
      match this
      case ExpensesData(_) => Expenses
      case CategoriesData(_) => Categories
      case BudgetData(_) => Resource.Budget
      case AnalyticsData(_) => Analytics
      case StatisticsData(_) => Statistics
      case RecurringData(_) => Recurring
    }
  }

  /** `AppState`. */
  datatype AppState = AppState(
    expenses: seq<Expense>,
    categories: seq<Category>,
    budget: Option<CurrentBudget>,
    analytics: seq<AnalyticsPoint>,
    statistics: Option<StatisticsResponse>,
    recurringExpenses: seq<RecurringExpense>,
    loading: PerResource<bool>,
    errors: PerResource<Option<string>>,
    cache: PerResource<Option<int>>)
  {
    function ValueOf(r: Resource): (p: Payload)
      ensures p.Of() == r
    {
      match r
      case Expenses => ExpensesData(expenses)
      case Categories => CategoriesData(categories)
      case Budget => BudgetData(budget)
      case Analytics => AnalyticsData(analytics)
      case Statistics => StatisticsData(statistics)
      case Recurring => RecurringData(recurringExpenses)
    }

    /** Replaces the value of one resource and nothing else. */
    function WithValue(p: Payload): (s: AppState)
      ensures s.ValueOf(p.Of()) == p
      ensures forall q :: q != p.Of() ==> s.ValueOf(q) == ValueOf(q)
      ensures s.loading == loading && s.errors == errors && s.cache == cache
    {
      match p
      case ExpensesData(v) => this.(expenses := v)
      case CategoriesData(v) => this.(categories := v)
      case BudgetData(v) => this.(budget := v)
      case AnalyticsData(v) => this.(analytics := v)
      case StatisticsData(v) => this.(statistics := v)
      case RecurringData(v) => this.(recurringExpenses := v)
    }
  }

  /** The value a resource starts with: an empty list, or `null`. */
  function EmptyValue(r: Resource): (p: Payload)
    ensures p.Of() == r
  {
    match r
    case Expenses => ExpensesData([])
    case Categories => CategoriesData([])
    case Budget => BudgetData(None)
    case Analytics => AnalyticsData([])
    case Statistics => StatisticsData(None)
    case Recurring => RecurringData([])
  }

  /** The state `useState` is initialised with. */
  function Initial(): (s: AppState)
    ensures forall r :: s.ValueOf(r) == EmptyValue(r)
    ensures forall r :: !s.loading.Get(r) && s.errors.Get(r) == None && s.cache.Get(r) == None
  {
    AppState([], [], None, [], None, [], Uniform(false), Uniform(None), Uniform(None))
  }

  /** `isCacheValid(timestamp, force)` read at clock time `now`. */
  predicate IsCacheValid(timestamp: Option<int>, force: bool, now: int) {
    if force then false
    else if timestamp == None || timestamp.value == 0 then false
    else now - timestamp.value < CacheDuration
  }

  /** A timestamp the store has written (a positive clock reading) keeps an
      unforced read fresh for exactly 30 seconds. */
  lemma FreshnessWindow(t: int, now: int)
    requires t > 0
    ensures IsCacheValid(Some(t), false, now) <==> now < t + CacheDuration
    ensures !IsCacheValid(Some(t), true, now)
    ensures !IsCacheValid(None, false, now) && !IsCacheValid(Some(0), false, now)
  {
  }

  /** The message a load records when its fetch throws: the error's
      `message` when that is non-empty, else the resource's default. */
  function LoadErrorMessage(r: Resource, thrown: Option<string>): (m: string)
    ensures |m| > 0
    ensures thrown.Some? && thrown.value != "" ==> m == thrown.value
    ensures thrown.None? || thrown.value == "" ==> m == DefaultLoadError(r)
  {
    if thrown.Some? && thrown.value != "" then thrown.value else DefaultLoadError(r)
  }

  function DefaultLoadError(r: Resource): (m: string)
    ensures |m| > 0
  {
    match r
    case Expenses => "Ошибка загрузки расходов"
    case Categories => "Ошибка загрузки категорий"
    case Budget => "Ошибка загрузки бюджета"
    case Analytics => "Ошибка загрузки аналитики"
    case Statistics => "Ошибка загрузки статистики"
    case Recurring => "Ошибка загрузки регулярных расходов"
  }

  /** The updater a load applies before it fetches: loading on, error cleared. */
  function BeginLoad(s: AppState, r: Resource): (t: AppState)
    ensures t.loading == s.loading.Set(r, true)
    ensures t.errors == s.errors.Set(r, None)
    ensures t.cache == s.cache
    ensures forall q :: t.ValueOf(q) == s.ValueOf(q)
  {
    s.(loading := s.loading.Set(r, true), errors := s.errors.Set(r, None))
  }

  /** The updater after a successful fetch, stamped with clock time `at`. */
  function LoadSucceeded(s: AppState, p: Payload, at: int): (t: AppState)
    ensures t.ValueOf(p.Of()) == p
    ensures forall q :: q != p.Of() ==> t.ValueOf(q) == s.ValueOf(q)
    ensures t.loading == s.loading.Set(p.Of(), false)
    ensures t.cache == s.cache.Set(p.Of(), Some(at))
    ensures t.errors == s.errors
  {
    var v := s.WithValue(p);
    v.(loading := s.loading.Set(p.Of(), false), cache := s.cache.Set(p.Of(), Some(at)))
  }

  /** The updater after a failed fetch: the value and the cache stay. */
  function LoadFailed(s: AppState, r: Resource, thrown: Option<string>): (t: AppState)
    ensures forall q :: t.ValueOf(q) == s.ValueOf(q)
    ensures t.cache == s.cache
    ensures t.loading == s.loading.Set(r, false)
    ensures t.errors == s.errors.Set(r, Some(LoadErrorMessage(r, thrown)))
  {
    s.(loading := s.loading.Set(r, false), errors := s.errors.Set(r, Some(LoadErrorMessage(r, thrown))))
  }

  /** A load that proceeds and succeeds changes only its own resource: the
      value is the fetched one, the cache is stamped, loading is off and the
      error is cleared. */
  lemma LoadSuccessEffect(s: AppState, p: Payload, at: int)
    ensures var t := LoadSucceeded(BeginLoad(s, p.Of()), p, at);
      && t.ValueOf(p.Of()) == p
      && t.cache.Get(p.Of()) == Some(at)
      && !t.loading.Get(p.Of())
      && t.errors.Get(p.Of()) == None
      && forall q :: q != p.Of() ==>
           t.ValueOf(q) == s.ValueOf(q) && t.loading.Get(q) == s.loading.Get(q)
           && t.errors.Get(q) == s.errors.Get(q) && t.cache.Get(q) == s.cache.Get(q)
  {
  }

  /** A load that proceeds and fails keeps every value and every timestamp,
      and leaves a non-empty error on its own resource only. */
  lemma LoadFailureEffect(s: AppState, r: Resource, thrown: Option<string>)
    ensures var t := LoadFailed(BeginLoad(s, r), r, thrown);
      && (forall q :: t.ValueOf(q) == s.ValueOf(q))
      && t.cache == s.cache
      && !t.loading.Get(r)
      && t.errors.Get(r).Some? && t.errors.Get(r).value != ""
      && forall q :: q != r ==> t.loading.Get(q) == s.loading.Get(q) && t.errors.Get(q) == s.errors.Get(q)
  {
  }

  /** `invalidateX`: forget the timestamp of one resource only. */
  function Invalidate(s: AppState, r: Resource): (t: AppState)
    ensures t.cache == s.cache.Set(r, None)
    ensures forall q :: t.ValueOf(q) == s.ValueOf(q)
    ensures t.loading == s.loading && t.errors == s.errors
  {
    s.(cache := s.cache.Set(r, None))
  }

  /** After `invalidateX` the next unforced load of that resource fetches;
      the other resources' freshness is unaffected. */
  lemma InvalidateForcesRefetch(s: AppState, r: Resource, now: int)
    ensures !IsCacheValid(Invalidate(s, r).cache.Get(r), false, now)
    ensures forall q :: q != r ==>
      IsCacheValid(Invalidate(s, r).cache.Get(q), false, now) == IsCacheValid(s.cache.Get(q), false, now)
  {
  }

  /** `clearAll`: every value back to empty and every timestamp to `null`;
      loading flags and errors are kept. */
  function ClearAll(s: AppState): (t: AppState)
    ensures forall r :: t.ValueOf(r) == EmptyValue(r) && t.cache.Get(r) == None
    ensures t.loading == s.loading && t.errors == s.errors
  {
    s.(expenses := [], categories := [], budget := None, analytics := [], statistics := None,
       recurringExpenses := [], cache := Uniform(None))
  }

  /** The store's expense identity: `'ID' in exp ? exp.ID : exp.id`. It goes
      by key presence, so an `ID` of 0 hides an `id`. */
  function StoreId(e: Expense): (k: Option<int>)
    ensures e.ID.Some? ==> k == e.ID
    ensures e.ID.None? ==> k == e.id
  {
    if e.ID.Some? then e.ID else e.id
  }

  /** `categories.find(cat => cat.ID === id)`: the first category with that ID. */
  function FindCategory(categories: seq<Category>, id: int): (r: Option<Category>)
    ensures r.Some? ==> r.value in categories && r.value.ID == id
    ensures r.Some? ==> exists k :: 0 <= k < |categories| && categories[k] == r.value
                          && forall j :: 0 <= j < k ==> categories[j].ID != id
    ensures r.None? <==> forall c :: c in categories ==> c.ID != id
  {
    if categories == [] then None
    else if categories[0].ID == id then Some(categories[0])
    else FindCategory(categories[1..], id)
  }

  /** The item `addExpense` stores: with the snapshot of its category when
      `category_id` is non-zero and a loaded category has that ID, else the
      expense as given. */
  function WithCategory(e: Expense, categories: seq<Category>): (r: Expense)
    ensures e.category_id != 0 && FindCategory(categories, e.category_id).Some? ==>
      r == e.(category := Some(Snapshot(FindCategory(categories, e.category_id).value)))
    ensures e.category_id == 0 || FindCategory(categories, e.category_id).None? ==> r == e
  {
    if e.category_id != 0 then
      match FindCategory(categories, e.category_id)
      case Some(c) => e.(category := Some(Snapshot(c)))
      case None => e
    else e
  }

  /** `addExpense`: prepend exactly one item, refresh the expense cache and
      clear its loading flag. */
  function AddExpense(s: AppState, e: Expense, now: int): (t: AppState)
    ensures t.expenses == [WithCategory(e, s.categories)] + s.expenses
    ensures t.cache == s.cache.Set(Expenses, Some(now))
    ensures t.loading == s.loading.Set(Expenses, false)
    ensures t.errors == s.errors
    ensures forall q :: q != Expenses ==> t.ValueOf(q) == s.ValueOf(q)
  {
    s.(expenses := [WithCategory(e, s.categories)] + s.expenses,
       cache := s.cache.Set(Expenses, Some(now)),
       loading := s.loading.Set(Expenses, false))
  }

  predicate HasOtherId(id: int, e: Expense) {
    StoreId(e) != Some(id)
  }

  /** `removeExpense`: keep exactly the items whose resolved identity differs,
      refresh the expense cache and clear its loading flag. */
  function RemoveExpense(s: AppState, id: int, now: int): (t: AppState)
    ensures forall x :: x in t.expenses <==> x in s.expenses && StoreId(x) != Some(id)
    ensures |t.expenses| <= |s.expenses|
    ensures t.cache == s.cache.Set(Expenses, Some(now))
    ensures t.loading == s.loading.Set(Expenses, false)
    ensures t.errors == s.errors
    ensures forall q :: q != Expenses ==> t.ValueOf(q) == s.ValueOf(q)
  {
    var p := (x: Expense) => HasOtherId(id, x);
    Seqs.FilterMembership(s.expenses, p);
    s.(expenses := Seqs.Filter(s.expenses, p),
       cache := s.cache.Set(Expenses, Some(now)),
       loading := s.loading.Set(Expenses, false))
  }

  /** Removing keeps the survivors in their order: removal distributes over
      splitting the list in two. */
  lemma RemoveExpenseKeepsOrder(s: AppState, front: seq<Expense>, back: seq<Expense>, id: int, now: int)
    requires s.expenses == front + back
    ensures RemoveExpense(s, id, now).expenses
         == RemoveExpense(s.(expenses := front), id, now).expenses
          + RemoveExpense(s.(expenses := back), id, now).expenses
  {
    Seqs.FilterAppend(front, back, (x: Expense) => HasOtherId(id, x));
  }

  /** Removing the same identity twice leaves what removing it once left. */
  lemma RemoveExpenseIdempotent(s: AppState, id: int, now: int, later: int)
    ensures RemoveExpense(RemoveExpense(s, id, now), id, later).expenses == RemoveExpense(s, id, now).expenses
  {
    Seqs.FilterIdempotent(s.expenses, (x: Expense) => HasOtherId(id, x));
  }

  function PatchMatching(xs: seq<Expense>, id: int, p: ExpensePatch): (r: seq<Expense>)
    ensures |r| == |xs|
    ensures forall i :: 0 <= i < |xs| ==>
      r[i] == if StoreId(xs[i]) == Some(id) then ApplyExpensePatch(xs[i], p) else xs[i]
  {
    seq(|xs|, i requires 0 <= i < |xs| =>
      if StoreId(xs[i]) == Some(id) then ApplyExpensePatch(xs[i], p) else xs[i])
  }

  /** `updateExpense`: same length, the patch spread over exactly the items
      whose resolved identity matches; cache refreshed, loading cleared. */
  function UpdateExpense(s: AppState, id: int, p: ExpensePatch, now: int): (t: AppState)
    ensures |t.expenses| == |s.expenses|
    ensures forall i :: 0 <= i < |s.expenses| && StoreId(s.expenses[i]) != Some(id) ==> t.expenses[i] == s.expenses[i]
    ensures forall i :: 0 <= i < |s.expenses| && StoreId(s.expenses[i]) == Some(id) ==>
      t.expenses[i] == ApplyExpensePatch(s.expenses[i], p)
    ensures t.cache == s.cache.Set(Expenses, Some(now))
    ensures t.loading == s.loading.Set(Expenses, false)
    ensures t.errors == s.errors
    ensures forall q :: q != Expenses ==> t.ValueOf(q) == s.ValueOf(q)
  {
    s.(expenses := PatchMatching(s.expenses, id, p),
       cache := s.cache.Set(Expenses, Some(now)),
       loading := s.loading.Set(Expenses, false))
  }

  /** Applying the same update twice gives what applying it once gave: an
      item the first update patched is either no longer matched or already
      carries every patched field. */
  lemma {:induction false} UpdateExpenseIdempotent(s: AppState, id: int, p: ExpensePatch, now: int, later: int)
    ensures UpdateExpense(UpdateExpense(s, id, p, now), id, p, later).expenses == UpdateExpense(s, id, p, now).expenses
  {
    var once := UpdateExpense(s, id, p, now).expenses;
    var twice := UpdateExpense(UpdateExpense(s, id, p, now), id, p, later).expenses;
    forall i | 0 <= i < |once| ensures twice[i] == once[i] {
      ExpensePatchLaws(s.expenses[i], p);
    }
  }

  /** `addCategory`: append; the cache and loading flags are not touched. */
  function AddCategory(s: AppState, c: Category): (t: AppState)
    ensures t.categories == s.categories + [c]
    ensures |t.categories| == |s.categories| + 1 && t.categories[|s.categories|] == c
    ensures t.cache == s.cache && t.loading == s.loading && t.errors == s.errors
    ensures forall q :: q != Categories ==> t.ValueOf(q) == s.ValueOf(q)
  {
    s.(categories := s.categories + [c])
  }

  predicate CategoryHasOtherId(id: int, c: Category) {
    c.ID != id
  }

  /** `removeCategory`: keep the categories with a different ID. */
  function RemoveCategory(s: AppState, id: int): (t: AppState)
    ensures forall c :: c in t.categories <==> c in s.categories && c.ID != id
    ensures |t.categories| <= |s.categories|
    ensures t.cache == s.cache && t.loading == s.loading && t.errors == s.errors
    ensures forall q :: q != Categories ==> t.ValueOf(q) == s.ValueOf(q)
  {
    var p := (c: Category) => CategoryHasOtherId(id, c);
    Seqs.FilterMembership(s.categories, p);
    s.(categories := Seqs.Filter(s.categories, p))
  }

  /** `updateCategory`: patch exactly the categories with that ID. */
  function UpdateCategory(s: AppState, id: int, p: CategoryPatch): (t: AppState)
    ensures |t.categories| == |s.categories|
    ensures forall i :: 0 <= i < |s.categories| ==>
      t.categories[i] == if s.categories[i].ID == id then ApplyCategoryPatch(s.categories[i], p) else s.categories[i]
    ensures t.cache == s.cache && t.loading == s.loading && t.errors == s.errors
    ensures forall q :: q != Categories ==> t.ValueOf(q) == s.ValueOf(q)
  {
    var cs := s.categories;
    s.(categories := seq(|cs|, i requires 0 <= i < |cs| =>
         if cs[i].ID == id then ApplyCategoryPatch(cs[i], p) else cs[i]))
  }

  /** The item `addRecurringExpense` stores: the category lookup runs on any
      `category_id`, zero included. */
  function RecurringWithCategory(item: RecurringExpense, categories: seq<Category>): (r: RecurringExpense)
    ensures FindCategory(categories, item.category_id).Some? ==>
      r == item.(category := Some(Snapshot(FindCategory(categories, item.category_id).value)))
    ensures FindCategory(categories, item.category_id).None? ==> r == item
  {
    match FindCategory(categories, item.category_id)
    case Some(c) => item.(category := Some(Snapshot(c)))
    case None => item
  }

  /** `addRecurringExpense`: prepend; the cache and loading flags are not touched. */
  function AddRecurringExpense(s: AppState, item: RecurringExpense): (t: AppState)
    ensures t.recurringExpenses == [RecurringWithCategory(item, s.categories)] + s.recurringExpenses
    ensures t.cache == s.cache && t.loading == s.loading && t.errors == s.errors
    ensures forall q :: q != Recurring ==> t.ValueOf(q) == s.ValueOf(q)
  {
    s.(recurringExpenses := [RecurringWithCategory(item, s.categories)] + s.recurringExpenses)
  }

  predicate RecurringHasOtherId(id: int, r: RecurringExpense) {
    r.ID != id
  }

  /** `removeRecurringExpense`: keep the items with a different ID. */
  function RemoveRecurringExpense(s: AppState, id: int): (t: AppState)
    ensures forall x :: x in t.recurringExpenses <==> x in s.recurringExpenses && x.ID != id
    ensures |t.recurringExpenses| <= |s.recurringExpenses|
    ensures t.cache == s.cache && t.loading == s.loading && t.errors == s.errors
    ensures forall q :: q != Recurring ==> t.ValueOf(q) == s.ValueOf(q)
  {
    var p := (x: RecurringExpense) => RecurringHasOtherId(id, x);
    Seqs.FilterMembership(s.recurringExpenses, p);
    s.(recurringExpenses := Seqs.Filter(s.recurringExpenses, p))
  }

  /** One item of `updateRecurringExpense`: spread the patch, then re-embed
      the category when the merged `category_id` is non-zero and found. */
  function MergeRecurring(item: RecurringExpense, p: RecurringPatch, categories: seq<Category>): (r: RecurringExpense)
    ensures var m := ApplyRecurringPatch(item, p);
      r == if m.category_id != 0 && FindCategory(categories, m.category_id).Some?
           then m.(category := Some(Snapshot(FindCategory(categories, m.category_id).value)))
           else m
  {
    var merged := ApplyRecurringPatch(item, p);
    if merged.category_id != 0 then
      match FindCategory(categories, merged.category_id)
      case Some(c) => merged.(category := Some(Snapshot(c)))
      case None => merged
    else merged
  }

  /** `updateRecurringExpense`: merge exactly the items with that ID. */
  function UpdateRecurringExpense(s: AppState, id: int, p: RecurringPatch): (t: AppState)
    ensures |t.recurringExpenses| == |s.recurringExpenses|
    ensures forall i :: 0 <= i < |s.recurringExpenses| ==>
      t.recurringExpenses[i] == if s.recurringExpenses[i].ID == id
                                then MergeRecurring(s.recurringExpenses[i], p, s.categories)
                                else s.recurringExpenses[i]
    ensures t.cache == s.cache && t.loading == s.loading && t.errors == s.errors
    ensures forall q :: q != Recurring ==> t.ValueOf(q) == s.ValueOf(q)
  {
    var rs := s.recurringExpenses;
    s.(recurringExpenses := seq(|rs|, i requires 0 <= i < |rs| =>
         if rs[i].ID == id then MergeRecurring(rs[i], p, s.categories) else rs[i]))
  }

  /** What a fetch does: resolve with data, or throw an error whose `message`
      may be missing. */
  type Fetched<T> = Result<T, Option<string>>

  /** The provider: the state record and the operations it hands to views. */
  class AppProvider {
    var state: AppState

    constructor ()
      ensures state == Initial()
    {
      state := Initial();
    }

    /** `loadExpenses(force)`: a forced load skips the cache check. `now` is
        the clock when called, `resolvedAt` the clock when the fetch settles.
        `fetched` says whether the fetch was issued. */
    method LoadExpenses(force: bool, now: int, response: Fetched<seq<Expense>>, resolvedAt: int) returns (fetched: bool)
      modifies this
      ensures fetched == !IsCacheValid(old(state).cache.expenses, force, now)
      ensures !fetched ==> state == old(state)
      ensures fetched && response.Success? ==>
        state == LoadSucceeded(BeginLoad(old(state), Expenses), ExpensesData(response.value), resolvedAt)
      ensures fetched && response.Failure? ==>
        state == LoadFailed(BeginLoad(old(state), Expenses), Expenses, response.error)
    {
      if force {
        state := BeginLoad(state, Expenses);
      } else {
        var shouldLoad := false;
        if IsCacheValid(state.cache.expenses, force, now) {
          shouldLoad := false;
        } else {
          shouldLoad := true;
          state := BeginLoad(state, Expenses);
        }
        if !shouldLoad {
          return false;
        }
      }
      fetched := true;
      match response {
        case Success(data) => state := LoadSucceeded(state, ExpensesData(data), resolvedAt);
        case Failure(message) => state := LoadFailed(state, Expenses, message);
      }
    }

    /** `loadCategories(force)`. */
    method LoadCategories(force: bool, now: int, response: Fetched<seq<Category>>, resolvedAt: int) returns (fetched: bool)
      modifies this
      ensures fetched == !IsCacheValid(old(state).cache.categories, force, now)
      ensures !fetched ==> state == old(state)
      ensures fetched && response.Success? ==>
        state == LoadSucceeded(BeginLoad(old(state), Categories), CategoriesData(response.value), resolvedAt)
      ensures fetched && response.Failure? ==>
        state == LoadFailed(BeginLoad(old(state), Categories), Categories, response.error)
    {
      var shouldLoad := false;
      if IsCacheValid(state.cache.categories, force, now) {
        shouldLoad := false;
      } else {
        shouldLoad := true;
        state := BeginLoad(state, Categories);
      }
      if !shouldLoad {
        return false;
      }
      fetched := true;
      match response {
        case Success(data) => state := LoadSucceeded(state, CategoriesData(data), resolvedAt);
        case Failure(message) => state := LoadFailed(state, Categories, message);
      }
    }

    /** `loadBudget(force)`: on a cache hit it still switches the budget's
        loading flag off. */
    method LoadBudget(force: bool, now: int, response: Fetched<CurrentBudget>, resolvedAt: int) returns (fetched: bool)
      modifies this
      ensures fetched == !IsCacheValid(old(state).cache.budget, force, now)
      ensures !fetched ==> state == old(state).(loading := old(state).loading.Set(Resource.Budget, false))
      ensures fetched && response.Success? ==>
        state == LoadSucceeded(BeginLoad(old(state), Resource.Budget), BudgetData(Some(response.value)), resolvedAt)
      ensures fetched && response.Failure? ==>
        state == LoadFailed(BeginLoad(old(state), Resource.Budget), Resource.Budget, response.error)
    {
      var shouldSkip := false;
      if !force && IsCacheValid(state.cache.budget, force, now) {
        shouldSkip := true;
        state := state.(loading := state.loading.Set(Resource.Budget, false));
      } else {
        state := BeginLoad(state, Resource.Budget);
      }
      if shouldSkip {
        return false;
      }
      fetched := true;
      match response {
        case Success(data) => state := LoadSucceeded(state, BudgetData(Some(data)), resolvedAt);
        case Failure(message) => state := LoadFailed(state, Resource.Budget, message);
      }
    }

    /** `loadAnalytics(period, start, end, force)`: the freshness check does
        not look at the period or the dates; they only shape the request,
        whose outcome is `response`. */
    method LoadAnalytics(period: AnalyticsPeriod, start: string, end: string, force: bool, now: int,
                         response: Fetched<seq<AnalyticsPoint>>, resolvedAt: int) returns (fetched: bool)
      modifies this
      ensures fetched == !IsCacheValid(old(state).cache.analytics, force, now)
      ensures !fetched ==> state == old(state)
      ensures fetched && response.Success? ==>
        state == LoadSucceeded(BeginLoad(old(state), Analytics), AnalyticsData(response.value), resolvedAt)
      ensures fetched && response.Failure? ==>
        state == LoadFailed(BeginLoad(old(state), Analytics), Analytics, response.error)
    {
      var shouldSkip := false;
      if !force && IsCacheValid(state.cache.analytics, force, now) {
        shouldSkip := true;
      } else {
        state := BeginLoad(state, Analytics);
      }
      if shouldSkip {
        return false;
      }
      fetched := true;
      match response {
        case Success(data) => state := LoadSucceeded(state, AnalyticsData(data), resolvedAt);
        case Failure(message) => state := LoadFailed(state, Analytics, message);
      }
    }

    /** `loadStatistics(period, force)`. */
    method LoadStatistics(period: StatisticsPeriod, force: bool, now: int,
                          response: Fetched<StatisticsResponse>, resolvedAt: int) returns (fetched: bool)
      modifies this
      ensures fetched == !IsCacheValid(old(state).cache.statistics, force, now)
      ensures !fetched ==> state == old(state)
      ensures fetched && response.Success? ==>
        state == LoadSucceeded(BeginLoad(old(state), Statistics), StatisticsData(Some(response.value)), resolvedAt)
      ensures fetched && response.Failure? ==>
        state == LoadFailed(BeginLoad(old(state), Statistics), Statistics, response.error)
    {
      var shouldSkip := false;
      if !force && IsCacheValid(state.cache.statistics, force, now) {
        shouldSkip := true;
      } else {
        state := BeginLoad(state, Statistics);
      }
      if shouldSkip {
        return false;
      }
      fetched := true;
      match response {
        case Success(data) => state := LoadSucceeded(state, StatisticsData(Some(data)), resolvedAt);
        case Failure(message) => state := LoadFailed(state, Statistics, message);
      }
    }

    /** `loadRecurringExpenses(force)`. */
    method LoadRecurringExpenses(force: bool, now: int, response: Fetched<seq<RecurringExpense>>, resolvedAt: int) returns (fetched: bool)
      modifies this
      ensures fetched == !IsCacheValid(old(state).cache.recurring, force, now)
      ensures !fetched ==> state == old(state)
      ensures fetched && response.Success? ==>
        state == LoadSucceeded(BeginLoad(old(state), Recurring), RecurringData(response.value), resolvedAt)
      ensures fetched && response.Failure? ==>
        state == LoadFailed(BeginLoad(old(state), Recurring), Recurring, response.error)
    {
      var shouldLoad := false;
      if !IsCacheValid(state.cache.recurring, force, now) {
        shouldLoad := true;
        state := BeginLoad(state, Recurring);
      }
      if !shouldLoad {
        return false;
      }
      fetched := true;
      match response {
        case Success(data) => state := LoadSucceeded(state, RecurringData(data), resolvedAt);
        case Failure(message) => state := LoadFailed(state, Recurring, message);
      }
    }

    method InvalidateResource(r: Resource)
      modifies this
      ensures state == Invalidate(old(state), r)
    {
      state := Invalidate(state, r);
    }

    method Clear()
      modifies this
      ensures state == ClearAll(old(state))
    {
      state := ClearAll(state);
    }

    method AddExpenseItem(e: Expense, now: int)
      modifies this
      ensures state == AddExpense(old(state), e, now)
    {
      state := AddExpense(state, e, now);
    }

    method RemoveExpenseItem(id: int, now: int)
      modifies this
      ensures state == RemoveExpense(old(state), id, now)
    {
      state := RemoveExpense(state, id, now);
    }

    method UpdateExpenseItem(id: int, p: ExpensePatch, now: int)
      modifies this
      ensures state == UpdateExpense(old(state), id, p, now)
    {
      state := UpdateExpense(state, id, p, now);
    }

    method AddCategoryItem(c: Category)
      modifies this
      ensures state == AddCategory(old(state), c)
    {
      state := AddCategory(state, c);
    }

    method RemoveCategoryItem(id: int)
      modifies this
      ensures state == RemoveCategory(old(state), id)
    {
      state := RemoveCategory(state, id);
    }

    method UpdateCategoryItem(id: int, p: CategoryPatch)
      modifies this
      ensures state == UpdateCategory(old(state), id, p)
    {
      state := UpdateCategory(state, id, p);
    }

    method AddRecurringItem(item: RecurringExpense)
      modifies this
      ensures state == AddRecurringExpense(old(state), item)
    {
      state := AddRecurringExpense(state, item);
    }

    method RemoveRecurringItem(id: int)
      modifies this
      ensures state == RemoveRecurringExpense(old(state), id)
    {
      state := RemoveRecurringExpense(state, id);
    }

    method UpdateRecurringItem(id: int, p: RecurringPatch)
      modifies this
      ensures state == UpdateRecurringExpense(old(state), id, p)
    {
      state := UpdateRecurringExpense(state, id, p);
    }
  }

  datatype AnalyticsPeriod = Day | Week | Month
  datatype StatisticsPeriod = StatDay | StatWeek | StatMonth | StatYear
}
