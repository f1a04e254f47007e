# Expense tracker client: the cache store and the logic around it

This project models the client side of an expense-tracking web app. The model is written in Dafny and its properties are proved.

At its centre is the **cache store**, `AppProvider` in `src/context/AppContext.tsx`:

- It is one state record holding six resources: expenses, categories, the current budget, analytics, statistics and recurring expenses.
- Each resource has a value, a loading flag, an error message and a cache timestamp.
- Each resource has a load operation that does one of three things:
  - skips a fetch while its data is less than 30 seconds old;
  - or marks itself loading and fetches;
  - then records either the data and the time, or an error.
- Per-resource invalidation and a reset clear the timestamps.
- Optimistic edits add, remove or update items in place.
  - Three edits embed a snapshot of the item's category: adding an expense (only for a non-zero `category_id`), adding a recurring expense (always searched), and updating a recurring expense (for the merged, non-zero `category_id`).
  - Updating an expense only spreads the patch, so a changed `category_id` keeps the old embedded category.
  - The category edits embed nothing.

Around the store the model covers these pieces:

- **Expense list page** (`src/pages/ExpensesPage.tsx`): identity for display, the period filter, the date sort, pages of 20 and the five-button page strip.
- **Recurring-expense page** (`src/pages/RecurringExpensesPage.tsx`): type and schedule labels, and what a form submission sends.
- **Dashboard** (`src/pages/DashboardPage.tsx`): which panel it shows and the per-category breakdown.
- **Budget bar and warning** (`src/components/BudgetSummary.tsx`, `src/components/BudgetWarning.tsx`).
- **API clients** for expenses, budgets and recurring expenses (`src/api/*.ts`): URLs, query strings, the user id taken from the login token, and the message each call throws.

Modules, one per file:

| module | models |
|---|---|
| `Wrappers` | `Option`, `Result` |
| `Seqs` | order-preserving `filter` and `reduce`-style sums |
| `Text` | integer-to-decimal rendering and `split`/`join` on one character |
| `Query` | the `k=v&k=v` form that `URLSearchParams` writes |
| `Domain` | the records the API returns, and the partial updates spread over them |
| `Store` | the state record, its pure updaters, and the class `AppProvider` whose methods apply them in the source's order |
| `StoreScenarios` | call sequences on a freshly mounted provider |
| `ExpensesPage`, `RecurringPage`, `Dashboard`, `BudgetView` | the views |
| `Http`, `Token`, `ExpenseApi`, `BudgetApi`, `RecurringApi` | the API clients |

Time and I/O are inputs to the model:

- A load takes the clock at the call (`now`) and at the moment its fetch settles (`resolvedAt`).
- A fetch's outcome is a parameter: data, or an error whose message may be missing.
- An HTTP response is a parameter. It is an ok body, an error body that is JSON or not, or a rejected promise carrying its error's message. A promise rejects when `fetch` itself fails or when an ok body is not JSON.
- Decoding the login token (`atob` followed by `JSON.parse`) is a function parameter.

When an error body is not JSON, `await res.json()` rejects. The message that surfaces is then the JSON parser's, not the response text and not the call's fallback (`Http.BodyMessage`).

## Model

| member | source | states |
|---|---|---|
| Store.Initial | src/context/AppContext.tsx:88-119 | every value starts empty or null; no resource is loading, has an error or has a timestamp |
| Store.FreshnessWindow | src/context/AppContext.tsx:83-125 | an unforced read of a timestamp the store wrote is fresh exactly for 30 000 ms after it; forcing, a null timestamp and a 0 timestamp are never fresh |
| Store.BeginLoad | src/context/AppContext.tsx:129-148 | a load that proceeds sets only its own loading flag on and its own error to null; values and timestamps are untouched |
| Store.LoadSucceeded | src/context/AppContext.tsx:154-161 | success replaces only that resource's value, turns its loading off and stamps its cache with the settle time; errors are untouched |
| Store.LoadFailed | src/context/AppContext.tsx:162-167 | failure keeps every value and every timestamp, turns loading off and records the error message on that resource only |
| Store.LoadErrorMessage | src/context/AppContext.tsx:165 | the recorded message is the error's message when non-empty, else the resource's default, and is never empty |
| Store.LoadSuccessEffect | src/context/AppContext.tsx:129-161 | the begin-then-succeed sequence leaves the value, a fresh stamp, loading off and no error on its resource, and every other resource exactly as it was |
| Store.LoadFailureEffect | src/context/AppContext.tsx:129-167 | the begin-then-fail sequence keeps all values and the whole cache, and leaves a non-empty error on its resource only |
| Store.AppProvider.LoadExpenses | src/context/AppContext.tsx:127-169 | a forced load always fetches; an unforced one fetches exactly when the cache is not fresh and otherwise leaves the state unchanged; after fetching the state is the begin-then-succeed or begin-then-fail state |
| Store.AppProvider.LoadCategories | src/context/AppContext.tsx:171-203 | fetches exactly when the categories' cache is not fresh (or forced), else no change; the new state as for expenses |
| Store.AppProvider.LoadBudget | src/context/AppContext.tsx:205-243 | on a fresh cache it does not fetch but still turns the budget's loading flag off; otherwise begin, then succeed or fail |
| Store.AppProvider.LoadAnalytics | src/context/AppContext.tsx:245-284 | freshness is decided by the analytics timestamp alone, whatever the period and dates; otherwise as the other loads |
| Store.AppProvider.LoadStatistics | src/context/AppContext.tsx:286-323 | fetches exactly when the statistics cache is not fresh (or forced); the new state as for the other loads |
| Store.AppProvider.LoadRecurringExpenses | src/context/AppContext.tsx:325-356 | fetches exactly when the recurring cache is not fresh (or forced); the new state as for the other loads |
| Store.AppProvider.constructor | src/context/AppContext.tsx:86-119 | a mounted provider holds the initial state |
| Store.AppProvider.InvalidateResource | src/context/AppContext.tsx:358-398 | the provider's state becomes the invalidated state for that resource |
| Store.AppProvider.Clear | src/context/AppContext.tsx:400-418 | the provider's state becomes the cleared state |
| Store.AppProvider.AddExpenseItem | src/context/AppContext.tsx:421-453 | the provider's state becomes the state with the expense prepended |
| Store.AppProvider.RemoveExpenseItem | src/context/AppContext.tsx:455-467 | the provider's state becomes the state without the matching expenses |
| Store.AppProvider.UpdateExpenseItem | src/context/AppContext.tsx:469-484 | the provider's state becomes the state with the matching expenses patched |
| Store.AppProvider.AddCategoryItem | src/context/AppContext.tsx:487-492 | the provider's state becomes the state with the category appended |
| Store.AppProvider.RemoveCategoryItem | src/context/AppContext.tsx:494-499 | the provider's state becomes the state without categories of that ID |
| Store.AppProvider.UpdateCategoryItem | src/context/AppContext.tsx:501-508 | the provider's state becomes the state with categories of that ID patched |
| Store.AppProvider.AddRecurringItem | src/context/AppContext.tsx:510-521 | the provider's state becomes the state with the recurring expense prepended |
| Store.AppProvider.RemoveRecurringItem | src/context/AppContext.tsx:523-528 | the provider's state becomes the state without recurring expenses of that ID |
| Store.AppProvider.UpdateRecurringItem | src/context/AppContext.tsx:530-545 | the provider's state becomes the state with recurring expenses of that ID merged |
| Store.Invalidate | src/context/AppContext.tsx:358-398 | only that resource's timestamp becomes null; values, loading flags and errors stay |
| Store.InvalidateForcesRefetch | src/context/AppContext.tsx:358-398 | after invalidation the next unforced load of that resource fetches, and every other resource's freshness is the same as before |
| Store.ClearAll | src/context/AppContext.tsx:400-418 | all six values are emptied and all six timestamps nulled; loading flags and errors stay as they were |
| Store.StoreId | src/context/AppContext.tsx:459 | the store's identity is `ID` whenever the key is present, even when it is 0, and `id` otherwise |
| Store.FindCategory | src/context/AppContext.tsx:425-427 | the result is the first category with that ID; there is none exactly when no category has it |
| Store.WithCategory | src/context/AppContext.tsx:424-438 | a non-zero `category_id` that a loaded category has gets that category's `{ID, name, color, icon}` embedded; otherwise the expense is stored as given |
| Store.AddExpense | src/context/AppContext.tsx:421-453 | prepends exactly one item, sets the expense cache to now and its loading off, and changes nothing else |
| Store.RemoveExpense | src/context/AppContext.tsx:455-467 | keeps exactly the items whose store identity differs from the id; sets the cache to now and loading off; nothing else changes |
| Store.RemoveExpenseKeepsOrder | src/context/AppContext.tsx:455-467 | removal distributes over splitting the list, so the survivors keep their order |
| Store.RemoveExpenseIdempotent | src/context/AppContext.tsx:455-467 | removing the same identity again removes nothing more |
| Store.UpdateExpense | src/context/AppContext.tsx:469-484 | the length is kept; exactly the items whose identity matches get the patch spread over them; cache to now, loading off |
| Store.UpdateExpenseIdempotent | src/context/AppContext.tsx:469-484 | applying the same update twice gives the list one application gave |
| Domain.ExpensePatchLaws | src/context/AppContext.tsx:476 | spreading an empty patch is the identity, and spreading a patch twice is spreading it once |
| Store.AddCategory | src/context/AppContext.tsx:487-492 | appends the category at the end; cache, loading and errors untouched |
| Store.RemoveCategory | src/context/AppContext.tsx:494-499 | keeps exactly the categories with another ID; cache, loading and errors untouched |
| Store.UpdateCategory | src/context/AppContext.tsx:501-508 | same length; exactly the categories with that ID are patched; cache, loading and errors untouched |
| Store.RecurringWithCategory | src/context/AppContext.tsx:512-517 | the category lookup runs on any `category_id`, zero included, and embeds the first match |
| Store.AddRecurringExpense | src/context/AppContext.tsx:510-521 | prepends exactly one item; cache, loading and errors untouched |
| Store.RemoveRecurringExpense | src/context/AppContext.tsx:523-528 | keeps exactly the items with another ID; cache, loading and errors untouched |
| Store.MergeRecurring | src/context/AppContext.tsx:533-541 | the patch is spread, then the category is re-embedded only when the merged `category_id` is non-zero and found |
| Store.UpdateRecurringExpense | src/context/AppContext.tsx:530-545 | same length; exactly the items with that ID are merged; cache, loading and errors untouched |
| StoreScenarios.RepeatWithinWindow | src/context/AppContext.tsx:121-169 | a second unforced load within 30 s of the first settling does not fetch, and the first data stays |
| StoreScenarios.RepeatAfterWindow | src/context/AppContext.tsx:121-169 | once 30 s have passed the next unforced load fetches and replaces the list |
| StoreScenarios.ForcedReload | src/context/AppContext.tsx:127-161 | a forced load fetches inside the window, replaces the list and restamps the cache |
| StoreScenarios.FailedReloadKeepsData | src/context/AppContext.tsx:127-167 | a failed reload keeps the list and its timestamp, turns loading off and records the thrown or the default message |
| StoreScenarios.InvalidateThenLoad | src/context/AppContext.tsx:358-363 | after invalidating, an unforced load inside the window fetches |
| StoreScenarios.AddThenLoad | src/context/AppContext.tsx:445-450 | an optimistic add restamps the cache, so an unforced load in the next 30 s does not overwrite the added item |
| StoreScenarios.ClearThenLoad | src/context/AppContext.tsx:400-418 | after `clearAll` the next unforced load fetches |
| StoreScenarios.BudgetHitKeepsData | src/context/AppContext.tsx:205-226 | a budget load inside the window does not fetch, keeps the budget and leaves its loading flag off |
| StoreScenarios.AnalyticsIgnoresPeriod | src/context/AppContext.tsx:245-267 | asking for another period inside the window returns the cached points without fetching |
| ExpensesPage.ExpenseId | src/pages/ExpensesPage.tsx:46-50 | `ID` when truthy, else `id` when truthy, else 0 |
| ExpensesPage.IdentityRulesAgree | src/pages/ExpensesPage.tsx:46-50 | the page's truthiness rule and the store's key-presence rule give the same non-zero identity, except when `ID` is present and 0 |
| ExpensesPage.IdentityRulesDiffer | src/pages/ExpensesPage.tsx:46-50 | for `{ID: 0, id: 5}` the store sees identity 0 and the page sees 5 |
| ExpensesPage.FilterByPeriod | src/pages/ExpensesPage.tsx:87-100 | `all` keeps the list; any other period keeps exactly the expenses with start ≤ date ≤ end |
| ExpensesPage.FilterByPeriodKeepsOrder | src/pages/ExpensesPage.tsx:95-98 | the filter distributes over concatenation, so it keeps the relative order |
| ExpensesPage.AsWrittenOrdering | src/pages/ExpensesPage.tsx:103-135 | on different dates the comparator puts the later date first for `newest` and the earlier first for `oldest`; on equal dates it compares `CreatedAt` only when both are non-zero, else `ID‖id‖0`; it is antisymmetric |
| ExpensesPage.AsWrittenNotTransitive | src/pages/ExpensesPage.tsx:112-126 | three same-date expenses, two with `CreatedAt` and one without, that the comparator orders in a cycle |
| ExpensesPage.CompareIsTotalPreorder | src/pages/ExpensesPage.tsx:103-135 | the corrected comparator is antisymmetric and transitive |
| ExpensesPage.CompareRefinesAsWritten | src/pages/ExpensesPage.tsx:103-135 | the corrected comparator returns exactly the source's value on every pair, except a same-date pair where only one has `CreatedAt` |
| ExpensesPage.EqualCreatedKeepsOrder | src/pages/ExpensesPage.tsx:112-126 | same-date expenses with equal `CreatedAt` tie under both comparators, and the sort keeps them in input order whatever their ids |
| ExpensesPage.Sort | src/pages/ExpensesPage.tsx:103 | the sorted list is a permutation of its input |
| ExpensesPage.SortSorted | src/pages/ExpensesPage.tsx:103 | the sorted list is ordered by the comparator |
| ExpensesPage.SortedByDate | src/pages/ExpensesPage.tsx:128-134 | a sorted list runs from later to earlier dates for `newest` and from earlier to later for `oldest` |
| ExpensesPage.FilteredAndSorted | src/pages/ExpensesPage.tsx:87-138 | the list shown is a permutation of the period-filtered expenses and is sorted |
| ExpensesPage.TotalPages | src/pages/ExpensesPage.tsx:141 | the page count is ceil(n/20): enough pages for n items, none empty, and 0 only for no items |
| ExpensesPage.JsSlice | src/pages/ExpensesPage.tsx:144 | for non-negative bounds `slice` is the subsequence with both bounds clamped to the length |
| ExpensesPage.PageContents | src/pages/ExpensesPage.tsx:142-144 | page p shows items (p-1)·20 up to min((p-1)·20+20, n): at most 20; nothing past the end; at least one on every page up to the page count |
| ExpensesPage.PagesTileList | src/pages/ExpensesPage.tsx:141-144 | pages 1 to the page count, in a row, are exactly the whole list |
| ExpensesPage.RangeCaptionCountsPage | src/pages/ExpensesPage.tsx:190 | on a page in range the caption `first–last of n` has 1 ≤ first ≤ last ≤ n and counts exactly the items shown |
| ExpensesPage.CaptionPastTheEnd | src/pages/ExpensesPage.tsx:141-190 | on a page past the last one of a non-empty list no item is shown and the caption's first number exceeds its last |
| ExpensesPage.DeleteLastOnPageTwo | src/pages/ExpensesPage.tsx:20-24 | after the only item of page 2 of 21 is deleted, 20 items fill one page, page 2 shows nothing and the caption reads 21-20 of 20 |
| ExpensesPage.ShownPage | src/pages/ExpensesPage.tsx:141 | the current page clamped into [1, pages] for a non-empty list, and unchanged when already in range |
| ExpensesPage.ShownCaptionCountsPage | src/pages/ExpensesPage.tsx:141-190 | with the page clamped, every non-empty list shows a non-empty page whose caption counts exactly its items |
| ExpensesPage.PageWindowProperties | src/pages/ExpensesPage.tsx:306-317 | the strip has min(5, pages) buttons, consecutive, all within [1, pages], and includes the current page whenever it is in range |
| ExpensesPage.PrevNextStayInRange | src/pages/ExpensesPage.tsx:299-334 | back gives max(1, p-1) and forward min(pages, p+1): both stay in range, move by at most one, and stay put only at their end |
| RecurringPage.TypeLabelInjective | src/pages/RecurringExpensesPage.tsx:30-41 | the four types have four different labels |
| RecurringPage.WeekdayIndex | src/pages/RecurringExpensesPage.tsx:45 | the weekday index is clamped into 0..6, with 1..7 mapped to 0..6 |
| RecurringPage.WeeklyLabel | src/pages/RecurringExpensesPage.tsx:44-47 | weekly with a non-zero day names the clamped weekday: 1 and anything lower is Monday, 7 and anything higher is Sunday |
| RecurringPage.DayOfMonthLabels | src/pages/RecurringExpensesPage.tsx:48-53 | monthly and yearly labels write the day in decimal, so different days give different labels |
| RecurringPage.FallbackExactly | src/pages/RecurringExpensesPage.tsx:43-55 | the fallback label shows exactly for `daily` and when the type's own qualifier is missing or 0 |
| RecurringPage.Submit | src/pages/RecurringExpensesPage.tsx:82-107 | nothing is sent when no category (or category 0) is chosen; a truthy editing id gives an update of that id, otherwise a creation; `day_of_month` is sent only for monthly/yearly and `day_of_week` only for weekly |
| RecurringPage.ChangeType | src/pages/RecurringExpensesPage.tsx:230-237 | choosing a type keeps the qualifier that type uses (or defaults it to 1) and clears the other; other fields stay |
| RecurringPage.ChangeTypeIdempotent | src/pages/RecurringExpensesPage.tsx:230-237 | choosing the same type twice is choosing it once |
| RecurringPage.ChangeTypeThenSubmit | src/pages/RecurringExpensesPage.tsx:230-237 | after a type change a submission sends the form's qualifiers unchanged, and the qualifier the type needs is present |
| RecurringPage.DefaultFormSkips | src/pages/RecurringExpensesPage.tsx:21-84 | the default form cannot be submitted and describes a monthly schedule on day 1 |
| Dashboard.Render | src/pages/DashboardPage.tsx:55-120 | the spinner shows iff analytics and statistics are both loading; otherwise the error panel shows iff `hasError`, with a non-empty message; the summary shows iff the budget is not loading and is a status; the empty notice shows iff the budget is not loading and is the sentinel |
| Dashboard.ShownError | src/pages/DashboardPage.tsx:78 | the message is the first truthy of the budget, analytics and statistics errors, else the statistics entry |
| Dashboard.ErrorPanelHasMessage | src/pages/DashboardPage.tsx:56-78 | whenever `hasError` holds, the message shown is a non-empty string |
| Dashboard.CategoryStats | src/pages/DashboardPage.tsx:85-88 | exactly the categories with a positive amount, or nothing without statistics or a category array |
| Dashboard.CategoryStatsKeepOrder | src/pages/DashboardPage.tsx:87 | the kept categories stay in the server's order |
| Dashboard.BreakdownAddsUp | src/pages/DashboardPage.tsx:89-92 | the total of a non-empty breakdown is positive and its per-item percentages add up to exactly 100; an empty breakdown totals 0 |
| BudgetView.Normalized | src/components/BudgetSummary.tsx:12 | the bar width always lies in [0, 100] and equals the percentage when that is in range |
| BudgetView.SafePercentage | src/components/BudgetSummary.tsx:13 | the displayed percentage always lies in [0, 150] and equals the percentage when that is in range |
| BudgetView.ClampsAgree | src/components/BudgetSummary.tsx:12-13 | the two clamps agree up to 100 and the width never exceeds the displayed value |
| BudgetView.BarColorOf | src/components/BudgetSummary.tsx:14-19 | red iff above 100, amber iff above 80 and at most 100, blue otherwise |
| BudgetView.WarningFor | src/components/BudgetWarning.tsx:6-12 | nothing below 80; above 100 "danger" with the exceeded label; from 80 to 100 "warning" with the near-limit label |
| BudgetView.ToneMatchesLabel | src/components/BudgetWarning.tsx:8-12 | the tone is "danger" exactly when the label is the exceeded label |
| BudgetView.WarningMatchesBar | src/components/BudgetSummary.tsx:14-19 | the warning and the bar agree except at exactly 80, where the bar is blue while the warning already shows |
| ExpenseApi.BuildExpensesUrl | src/api/expense.ts:28-35 | the URL built by the successive appends is the path plus, when any parameter was appended, `?` and the encoded parameters |
| ExpenseApi.ParamsShape | src/api/expense.ts:29-33 | the parameters are the truthy fields, in the fixed order category_id, start_date, end_date, limit, offset, each with its field's value |
| ExpenseApi.ParamSent | src/api/expense.ts:29-33 | a pair is sent iff its field is truthy and the value is that field's, so a 0 id, limit or offset and an empty date are left out |
| ExpenseApi.BarePathExactly | src/api/expense.ts:28-35 | the URL is exactly `/api/expenses`, with no `?`, iff there is no filter or every field is falsy |
| ExpenseApi.QueryReadsBack | src/api/expense.ts:28-35 | with dates free of `&` and `=`, the query after `?` decodes back to exactly the appended parameters |
| ExpenseApi.ListOutcome | src/api/expense.ts:43-45 | a failed status throws "Failed to load expenses" whatever the body; a rejected promise throws its own message |
| ExpenseApi.Outcome | src/api/expense.ts:59-133 | on a failed status the other calls throw the message chosen from the error body with the call's own fallback; a rejected promise throws its own message |
| ExpenseApi.RequestsIdentifyCall | src/api/expense.ts:53-123 | different calls send different method/URL pairs, and a by-id URL reads back as its id |
| Http.BodyMessage | src/api/expense.ts:60-61 | the message is the body's non-empty `error`, else the fallback; a body that is not JSON surfaces the parser's message |
| Http.FixedIgnoresBody | src/api/expense.ts:43-45 | a fixed-message call fails identically whatever the body; a reporting call falls back exactly when the server gave no other message |
| Http.UserQueryReadsBack | src/api/budget.ts:40 | the `?user_id=N` suffix is present iff a user id was derived, and then decodes to that single parameter, which reads back as the id |
| Token.UserIdFromToken | src/api/budget.ts:22-35 | no token, no second segment, a payload that does not decode, and a falsy `user_id` each give null; otherwise the result is the claim, never 0, and nothing throws |
| Token.ReadsPayloadSegment | src/api/recurring-expense.ts:24-36 | for `header.payload.signature` the result depends on the payload segment alone |
| BudgetApi.Url | src/api/budget.ts:40-143 | creation fails with "User ID not found in token" before any request iff no user id was derived; every other call has a URL |
| BudgetApi.UserScoping | src/api/budget.ts:40-97 | the list URL carries `?user_id=N` iff a user id was derived; the creation URL always carries it |
| BudgetApi.Outcome | src/api/budget.ts:48-153 | creation without a user id fails with its message whatever the response; on a failed status the list and current calls throw fixed messages and the others the message chosen from the error body with their fallback; a rejected promise throws its own message |
| BudgetApi.CurrentBudgetShape | src/api/budget.ts:71-83 | the current-budget call does not depend on the token: URL and result are the same for every user id, and a failed status gives "No budget" whatever the body |
| BudgetApi.ByIdReadsBack | src/api/budget.ts:57-143 | a by-id budget URL reads back as its id |
| RecurringApi.UserScoping | src/api/recurring-expense.ts:41-100 | the list, active and create URLs are the bare URL plus `?user_id=N`, present iff a user id was derived |
| RecurringApi.ByIdReadsBack | src/api/recurring-expense.ts:76-183 | by-id URLs are `/api/recurring-expenses/{id}` plus `/activate` or `/deactivate`, and the id reads back from them |
| RecurringApi.ToggleUrlsDiffer | src/api/recurring-expense.ts:166-183 | activation, deactivation and the item's own URL are three different URLs |
| RecurringApi.Outcome | src/api/recurring-expense.ts:49-193 | on a failed status the list and active calls throw fixed messages whatever the body, and the others the message chosen from the error body with their fallback; a rejected promise throws its own message |
| Query.DecodeEncode | src/api/expense.ts:35 | `params.toString()` reads back as the parameters it was built from |
| Text.IntToStringRoundTrip | src/api/expense.ts:29 | the decimal rendering of an integer parses back to it |
| Text.JoinSplit | src/api/budget.ts:27 | joining the pieces of a `split` gives the original string |
| Text.SplitJoin | src/api/budget.ts:27 | splitting a join of separator-free pieces gives the pieces |

## Left out

- HTTP, `localStorage` and response decoding are I/O. Every fetch outcome, every response body and the stored token are inputs.
- `atob` and `JSON.parse` of the token payload are foreign calls. They are the `Token.Decoder` parameter. A `user_id` claim is taken to be an integer, and `Number()` of other claims is not modelled.
- Percent-encoding by `URLSearchParams` is not modelled. Keys and values are taken to encode as themselves, and `ExpenseApi.QueryReadsBack` requires dates without `&` and `=`.
- `getPeriodDates` (src/pages/ExpensesPage.tsx:53-84) uses local-time `Date` arithmetic. The range it yields is the `start`/`end` parameters of `ExpensesPage.FilterByPeriod`.
- Dates are integer millisecond timestamps. `new Date(...)` parsing and invalid dates (NaN) are not modelled.
- ExpensesPage.Sort: `Array.prototype.sort` is the engine's. It is modelled as a stable insertion sort. The list pipeline uses the corrected comparator (see Findings), because under the comparator as written no order is consistent and the engine's output is unspecified.
- ExpensesPage.FilteredAndSorted: the corrected comparator equals the source's on every pair except a same-date pair where only one expense has `CreatedAt`. Only lists holding such pairs can be ordered differently from the source.
- Floating point is left out:
  - amounts and percentages are exact reals;
  - ids and timestamps are unbounded integers;
  - `parseFloat`, `toString()` of amounts and `toLocaleString` are not modelled;
  - the recurring form keeps the amount as the text typed.
- React scheduling: each `setState` updater runs at once, as the code assumes. Overlapping loads (the dashboard's `Promise.all`) are concurrency and are left out.
- On the recurring page, `startEdit`, `handleDelete`, `handleToggle` and the steps after a successful submit are sequences of API calls and store calls. Those store calls are modelled in `Store`. The form reset, `alert` and `confirm` are UI.
- `RecurringPage.Submit` gives the request to send. The API call it makes is `RecurringApi.Outcome`.
- Rendering, charts, the Telegram host glue, dev mode and the thin category, statistics and analytics clients have no logic beyond templates and are not modelled.

## Findings

| source | as written | input that shows it | evidently intended | confidence | as-written member | corrected member |
|---|---|---|---|---|---|---|
| src/pages/ExpensesPage.tsx:112-126 | on equal dates the comparator compares `CreatedAt` when both have it and the ids otherwise, so it is not transitive | same date, sort "oldest": a (CreatedAt 1, ID 3), b (no CreatedAt, ID 2), c (CreatedAt 2, ID 1) give a before c, c before b and b before a | a consistent order: date, then `CreatedAt` (missing as 0), then the id for expenses without `CreatedAt` | not executed; high that the comparator is inconsistent, medium on the visible effect, which depends on the engine's sort | ExpensesPage.AsWrittenNotTransitive | ExpensesPage.CompareIsTotalPreorder |
| src/pages/ExpensesPage.tsx:20-24 | deleting an expense leaves the current page as it was, so it can lie past the last page | 21 items on page 2; delete the one item there: 20 remain on one page, page 2 shows nothing and the caption reads "21-20 из 20" | the current page kept within [1, totalPages] | not executed; high | ExpensesPage.CaptionPastTheEnd | ExpensesPage.ShownCaptionCountsPage |
