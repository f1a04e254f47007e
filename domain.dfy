/** The records the front end exchanges with the REST API (the types
    declared in the files of src/api), and the `Partial<T>` patches the store
    spreads over them. An optional field is an `Option`: `None` is a key
    that is absent from the object. */
module Domain {
  import opened Wrappers

  /** A category as the categories endpoint returns it. */
  datatype Category = Category(ID: int, name: string, color: string, icon: Option<string>)

  /** The category fields an expense or a recurring expense embeds. */
  datatype CategoryRef = CategoryRef(ID: int, name: string, color: Option<string>, icon: Option<string>)

  /** The `{ID, name, color, icon}` snapshot the store copies out of a category. */
  function Snapshot(c: Category): (r: CategoryRef)
    ensures r.ID == c.ID && r.name == c.name && r.color == Some(c.color) && r.icon == c.icon
  {
    CategoryRef(c.ID, c.name, Some(c.color), c.icon)
  }

  /** An expense. Its identity may sit under `ID` or under `id`, and both
      are optional. `date` is the expense date as a time value (what
      `new Date(expense.date).getTime()` yields), `createdAt` the time value
      of the server's `CreatedAt` field when that field is present and
      non-empty. */
  datatype Expense = Expense(
    ID: Option<int>,
    id: Option<int>,
    amount: real,
    description: string,
    date: int,
    category_id: int,
    category: Option<CategoryRef>,
    createdAt: Option<int>)

  datatype RecurringType = Daily | Weekly | Monthly | Yearly

  /** A recurring expense; `kind` is the source's `type` field. */
  datatype RecurringExpense = RecurringExpense(
    ID: int,
    user_id: int,
    category_id: int,
    amount: real,
    description: string,
    kind: RecurringType,
    day_of_month: Option<int>,
    day_of_week: Option<int>,
    is_active: bool,
    next_date: string,
    category: Option<CategoryRef>)

  datatype Budget = Budget(ID: int, amount: real, month: int, year: int)

  datatype BudgetStatus = BudgetStatus(
    budget: Budget,
    spent: real,
    remaining: real,
    percentage: real,
    is_exceeded: bool,
    is_near_limit: bool)

  /** `CurrentBudgetResponse`: the `{empty: true}` sentinel or a budget status. */
  datatype CurrentBudget = EmptySentinel | Status(status: BudgetStatus) {
    /** `"empty" in value`: only the sentinel object has the `empty` key. */
    predicate HasEmptyKey() {
      EmptySentinel?
    }
  }

  datatype AnalyticsPoint = AnalyticsPoint(date: string, total: real, count: int)

  datatype CategoryStat = CategoryStat(
    category_id: int,
    category_name: string,
    category_color: string,
    total_amount: real,
    percentage: real)

  /** `by_category` is `None` when the payload's field is not an array. */
  datatype StatisticsResponse = StatisticsResponse(total_amount: real, by_category: Option<seq<CategoryStat>>)

  /** `Partial<Expense>`: the keys present in the patch. */
  datatype ExpensePatch = ExpensePatch(
    ID: Option<int>,
    id: Option<int>,
    amount: Option<real>,
    description: Option<string>,
    date: Option<int>,
    category_id: Option<int>,
    category: Option<CategoryRef>,
    createdAt: Option<int>)

  /** `{ ...e, ...p }`: every key present in the patch overrides the record's. */
  function ApplyExpensePatch(e: Expense, p: ExpensePatch): Expense {
    Expense(
      if p.ID.Some? then p.ID else e.ID,
      if p.id.Some? then p.id else e.id,
      p.amount.GetOr(e.amount),
      p.description.GetOr(e.description),
      p.date.GetOr(e.date),
      p.category_id.GetOr(e.category_id),
      if p.category.Some? then p.category else e.category,
      if p.createdAt.Some? then p.createdAt else e.createdAt)
  }

  const NoExpenseChange := ExpensePatch(None, None, None, None, None, None, None, None)

  lemma ExpensePatchLaws(e: Expense, p: ExpensePatch)
    ensures ApplyExpensePatch(e, NoExpenseChange) == e
    ensures ApplyExpensePatch(ApplyExpensePatch(e, p), p) == ApplyExpensePatch(e, p)
  {
  }

  /** `Partial<Category>`. */
  datatype CategoryPatch = CategoryPatch(ID: Option<int>, name: Option<string>, color: Option<string>, icon: Option<string>)

  function ApplyCategoryPatch(c: Category, p: CategoryPatch): Category {
    Category(p.ID.GetOr(c.ID), p.name.GetOr(c.name), p.color.GetOr(c.color), if p.icon.Some? then p.icon else c.icon)
  }

  /** `Partial<RecurringExpense>`. */
  datatype RecurringPatch = RecurringPatch(
    ID: Option<int>,
    user_id: Option<int>,
    category_id: Option<int>,
    amount: Option<real>,
    description: Option<string>,
    kind: Option<RecurringType>,
    day_of_month: Option<int>,
    day_of_week: Option<int>,
    is_active: Option<bool>,
    next_date: Option<string>,
    category: Option<CategoryRef>)

  function ApplyRecurringPatch(r: RecurringExpense, p: RecurringPatch): RecurringExpense {
    RecurringExpense(
      p.ID.GetOr(r.ID),
      p.user_id.GetOr(r.user_id),
      p.category_id.GetOr(r.category_id),
      p.amount.GetOr(r.amount),
      p.description.GetOr(r.description),
      p.kind.GetOr(r.kind),
      if p.day_of_month.Some? then p.day_of_month else r.day_of_month,
      if p.day_of_week.Some? then p.day_of_week else r.day_of_week,
      p.is_active.GetOr(r.is_active),
      p.next_date.GetOr(r.next_date),
      if p.category.Some? then p.category else r.category)
  }
}
