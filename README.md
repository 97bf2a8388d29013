# Finance tracker backend — a Dafny model

This project models the core of the finance-tracker backend. The backend is an Express
service over MongoDB, and users sign in through Firebase. A signed-in user records
**expenses**, sets monthly **budgets** per category and saves towards **goals**. An
expense can be linked to a goal.

Three pieces of state are cached, and the routes keep them up to date:
- the cached `spent` of the current month's budget for a category;
- a goal's `progress`, which is its `initialProgress` baseline plus the sum of its linked active expenses, clamped to `[0, amount]`;
- the `rolloverAmount` a budget inherits from the previous month.

The model contains:

- **Dates** (`dates.dfy`). Calendar values, the month-token parser `getDateRangeFromMonth` and
  the current-month window. JavaScript's `new Date(y, m, d)` normalisation is written out: a
  month of 0 or 13 and day 0 shift the date, and years 0–99 map to 1900–1999. The JavaScript
  clock is the parameter `now`.
- **Records** (`records.dfy`). The stored entities as datatypes. The database is a class
  `Database` whose fields are the collections (`seq`) and the id counter. Its invariant: ids are
  unique and below the counter.
- **Budget spent** (`budget_spent.dfy`). `updateBudgetSpent` recomputes the month budget's
  `spent` as a sum over the expenses.
- **Goal routes** (`goal_routes.dfy`). `validateAndCorrectGoalProgress`, `/reconcile`,
  `/details` and POST, PUT and DELETE.
- **Expense routes** (`expense_routes.dfy`). `updateGoalProgress` and POST, PUT, DELETE and GET.
- **Budget routes** (`budget_routes.dfy`). POST as add-or-update, GET with the rollover pass,
  PUT and DELETE.
- **Alert routes** (`alert_routes.dfy`). Low-budget alerts and alerts for expenses due within a week.
- **Services** (`budget_service.dfy`, `expense_service.dfy`, `user_service.dfy`). The service
  layer with its validation, not-found and ownership errors.
- **Authentication** (`auth.dfy`). The header checks and error mapping of
  `verifyFirebaseToken`. Firebase's token verification is a function parameter.

Every route that changes state has two parts:
- a **method** on `Database` that `modifies` only the collections the route writes;
- a pure **transition function** of the old tables. The method's `ensures` ties its result to that function.

The lemmas then state the route's properties about the transition function. These include:
- idempotence of reconciliation;
- the derived-state invariant of goals;
- owner scoping;
- error cases that leave the store unchanged;
- rollover overwriting rather than adding;
- the meaning of each response.

## Model

| member | source | states |
|---|---|---|
| Dates.GetDateRangeFromMonth | backend/utils/dateUtils.js:8-50 | the window always consists of valid dates |
| Dates.IsMonthToken | backend/utils/dateUtils.js:17 | no contract of its own: the test `^\d{4}-\d{2}$`, seven characters with four digits, a dash and two digits; `MalformedTokenIsCurrentMonth` and `WellFormedTokenIsUsed` state how it is used |
| Dates.RangeOfToken | backend/utils/dateUtils.js:23-28 | no contract of its own: the window built from a well-formed token; `RangeOfTokenShape` states its shape |
| Dates.CurrentMonthRange | backend/utils/dateUtils.js:8-13 | the current month's window consists of valid dates |
| Dates.CurrentMonthRangeIsResolved | backend/utils/dateUtils.js:8-28 | the window of the clock's month is exactly what `getDateRangeFromMonth` computes from the token printed from the clock |
| Dates.CurrentMonthToken | backend/utils/dateUtils.js:10-13 | the clock's month is printed as a well-formed `YYYY-MM` token |
| Dates.RangeOfTokenShape | backend/utils/dateUtils.js:23-28 | a token's window runs from the 1st at 00:00:00.000 to the last day of the month at 23:59:59.999, and both ends lie in the same month |
| Dates.MissingTokenIsCurrentMonth | backend/utils/dateUtils.js:9-13 | with no month or an empty month, the window is the clock's month |
| Dates.MalformedTokenIsCurrentMonth | backend/utils/dateUtils.js:17-21 | a token that does not match `YYYY-MM` falls back to the current month |
| Dates.WellFormedTokenIsUsed | backend/utils/dateUtils.js:17-28 | a well-formed token's window is used, whatever the clock says |
| Dates.CurrentMonthWindow | backend/utils/dateUtils.js:10-13 | the token printed from the clock parses back to the clock's own month |
| Dates.TokenInRangeIsItsMonth | backend/utils/dateUtils.js:17-28 | a token with year ≥ 100 and month 1–12 denotes exactly that month |
| Dates.InRangeIffSameMonth | backend/utils/dateUtils.js:26-28 | a date lies in the window if and only if it is in the window's month and is not the final millisecond, because the upper bound `$lt endDate` is exclusive |
| Dates.CurrentMonthRangeMembership | backend/utils/dateUtils.js:8-13 | membership in the current-month window is "same month as now", except for the final millisecond |
| Dates.MonthTokenRoundTrip | backend/routes/budgetRoutes.js:105-108 | printing a year and month as a token and reading it back gives the same year and month, as the previous month's token is printed and then parsed (also dateUtils.js:12 and budgetRoutes.js:15-16) |
| Dates.DayZeroIsLastDay | backend/utils/dateUtils.js:27 | day 0 of the next month is the last day of the month, December/January rollover included |
| Dates.NormalizeMonthUnique | backend/utils/dateUtils.js:23-27 | normalising a month index gives the unique year and month 1–12 with the same month count |
| Dates.NormalizeMonth | backend/utils/dateUtils.js:23-27 | a month index of any size gives a month 1–12 and a year with the same month count, as `new Date(y, m, d)` normalises it |
| Dates.FullYear | backend/utils/dateUtils.js:23-27 | years 0–99 become 1900–1999 and every other year is kept, the Date constructor's two-digit-year rule |
| Dates.PrevNextDay | backend/utils/dateUtils.js:27 | stepping a day back and then forward is the identity |
| Dates.FebruaryOfCommonYear | backend/utils/dateUtils.js:17-28 | "2023-02" ends on the 28th |
| Dates.FebruaryOfLeapYear | backend/utils/dateUtils.js:17-28 | "2024-02" ends on the 29th |
| Dates.MonthThirteenNormalises | backend/utils/dateUtils.js:23-28 | "2023-13" is January 2024, as JavaScript date normalisation gives |
| Dates.MonthZeroNormalises | backend/utils/dateUtils.js:23-28 | "2023-00" is December 2022 |
| Dates.TwoDigitYearQuirk | backend/utils/dateUtils.js:23-28 | year "0023" is 1923, the two-digit-year rule of the Date constructor |
| BudgetSpent.RecomputeSpent | backend/utils/updateBudgetSpent.js:11-50 | the table keeps its length; the result is none if and only if the user has no month budget for the category in the window, and then nothing changes |
| BudgetSpent.RecomputeSpentSome | backend/utils/updateBudgetSpent.js:19-47 | when a month budget exists, exactly the first one is rewritten and returned, with `spent` set to the sum of the active expenses of that user and category in the window |
| BudgetSpent.UpdateBudgetSpent | backend/utils/updateBudgetSpent.js:11-50 | the stored budgets become the recomputation over the current-month window; ids stay unique |
| BudgetSpent.RecomputeSpentSetsSum | backend/utils/updateBudgetSpent.js:31-42 | the first matching budget is returned and its `spent` is exactly the in-window sum |
| BudgetSpent.PriorSpentIrrelevant | backend/utils/updateBudgetSpent.js:41-42 | the stale value of `spent` plays no part in the result |
| BudgetSpent.RecomputeSpentIdempotent | backend/utils/updateBudgetSpent.js:11-50 | a second recomputation over the same expenses changes nothing |
| BudgetSpent.SpentInRangeSnoc | backend/utils/updateBudgetSpent.js:31-38 | appending an expense adds its amount exactly when it counts (same user and category, active, in the window) |
| BudgetSpent.ExcludedExpenses | backend/utils/updateBudgetSpent.js:31-38 | inactive expenses and expenses of another user or category never count |
| BudgetSpent.SpentIgnoresOthers | backend/utils/updateBudgetSpent.js:31-38 | adding expenses that do not count leaves the sum unchanged |
| BudgetSpent.MonthBudgetIndexKeys | backend/utils/updateBudgetSpent.js:19-28 | the month budget found depends only on the rows' user, category and date |
| GoalRoutes.ValidateAndCorrect | backend/routes/goalRoutes.js:9-61 | the table keeps its length; the result is none if and only if the user owns no goal with that id, and then nothing changes |
| GoalRoutes.ValidateAndCorrectAt | backend/routes/goalRoutes.js:9-61 | for the first goal of the user with that id, that row alone becomes its reconciliation against the sum of its linked active expenses, and the reconciled goal is returned |
| GoalRoutes.ValidateAndCorrectGoalProgress | backend/routes/goalRoutes.js:9-61 | the stored goals become the validated table; ids stay unique |
| GoalRoutes.ReconciledIsConsistent | backend/routes/goalRoutes.js:43-54 | after reconciliation, `progress` is `initialProgress` plus the linked sum, clamped to `[0, amount]`; no field other than progress and baseline changes |
| GoalRoutes.Reconciled | backend/routes/goalRoutes.js:30-54 | the reconciled goal is consistent (progress is the baseline plus the linked sum, clamped to `[0, amount]`), and only progress and baseline differ from the stored goal |
| GoalRoutes.SeedingRule | backend/routes/goalRoutes.js:30-40 | the baseline is seeded from `progress` exactly under the seeding condition and is kept otherwise |
| GoalRoutes.ConsistentIsFixed | backend/routes/goalRoutes.js:50-54 | a consistent goal that needs no seeding is not rewritten |
| GoalRoutes.ReconciledIdempotent | backend/routes/goalRoutes.js:9-61 | reconciling twice over the same expenses equals reconciling once |
| GoalRoutes.NotOwnedIsNoOp | backend/routes/goalRoutes.js:11-13 | a goal of another user is neither read nor changed |
| GoalRoutes.ValidateAndCorrectIdempotent | backend/routes/goalRoutes.js:9-61 | the table-level validation is idempotent |
| GoalRoutes.ReconcileAll | backend/routes/goalRoutes.js:64-97 | reconciling all the user's goals keeps the table's length |
| GoalRoutes.ReconcileAllKeys | backend/routes/goalRoutes.js:64-97 | reconciliation never moves a goal's id or owner |
| GoalRoutes.ReconcileAt | backend/routes/goalRoutes.js:74 | one call on a goal of the user rewrites only that row, to its reconciliation |
| GoalRoutes.ReconcileUserGoals | backend/routes/goalRoutes.js:64-97 | the loop over the user's goals leaves the table as `ReconcileAll` and returns the before/after pairs |
| GoalRoutes.Reconcile | backend/routes/goalRoutes.js:64-97 | `/reconcile` stores the reconciled table; its report and `correctedCount` are those of the pairs |
| GoalRoutes.EntriesMeaning | backend/routes/goalRoutes.js:76-87 | a report row carries the goal's old and new progress and is marked corrected if and only if they differ |
| GoalRoutes.NoCorrectionsIff | backend/routes/goalRoutes.js:87 | the corrected count is zero if and only if every goal of the user already had the recomputed progress |
| GoalRoutes.ReconcileAllIdempotent | backend/routes/goalRoutes.js:64-97 | reconciling the whole table twice equals reconciling it once |
| GoalRoutes.SecondReconcileCorrectsNothing | backend/routes/goalRoutes.js:64-97 | a second `/reconcile` reports zero corrections |
| GoalRoutes.ReconcileAllAt | backend/routes/goalRoutes.js:64-97 | each of the user's goals is reconciled independently; other users' goals are kept |
| GoalRoutes.GoalDetails | backend/routes/goalRoutes.js:118-164 | `/details` stores the reconciled goals and returns their details |
| GoalRoutes.DetailOfReconciled | backend/routes/goalRoutes.js:132-154 | `remaining` is `amount - progress` and lies in `[0, amount]`; the duration is never 0; the monthly target times the duration is the amount |
| GoalRoutes.Detail | backend/routes/goalRoutes.js:131-153 | the duration is never 0 and `remaining` never negative; progress plus remaining covers the amount; id and amount come from the goal before, progress from the goal after |
| GoalRoutes.NewGoal | backend/routes/goalRoutes.js:180-201 | progress and baseline are both the requested progress clamped to `[0, amount]`; name, amount and type come from the request, the duration defaults to 1 and the date defaults to now |
| GoalRoutes.NewGoalIsConsistent | backend/routes/goalRoutes.js:184-185 | a new goal with nothing linked is already reconciled |
| Records.ClampProgress | backend/routes/goalRoutes.js:46-47 | with a non-negative amount the result lies in `[0, amount]`; a value already in range is kept; a value above the amount becomes the amount |
| GoalRoutes.AddGoal | backend/routes/goalRoutes.js:180-201 | POST appends the new goal with a fresh id and touches no other collection |
| GoalRoutes.UpdatedGoal | backend/routes/goalRoutes.js:204-248 | PUT stores the clamped progress and a baseline of progress minus the linked sum, floored at 0, and keeps id, owner and date; name, amount and type come from the request, and the duration is the request's or else the goal's own; with a non-negative amount, `0 <= progress <= amount` |
| GoalRoutes.UpdatedGoalThenReconcile | backend/routes/goalRoutes.js:215-227 | a PUT progress of at least the linked sum survives a later reconciliation; a lower one is lifted to the clamped linked sum |
| GoalRoutes.UpdateGoal | backend/routes/goalRoutes.js:204-248 | a missing goal or another user's goal answers "Goal not found" and changes nothing; otherwise exactly that row is rewritten |
| GoalRoutes.Unlink | backend/routes/goalRoutes.js:261-266 | after unlinking, no expense of the user refers to the goal; every other expense is unchanged |
| GoalRoutes.UnlinkGoalExpenses | backend/routes/goalRoutes.js:261-266 | the stored expenses become the unlinked table; ids stay unique |
| GoalRoutes.UnlinkNothing | backend/routes/goalRoutes.js:263-266 | when no expense of the user is linked to the goal, unlinking changes nothing |
| GoalRoutes.RemoveGoal | backend/routes/goalRoutes.js:269 | the goal at the row is removed and the others keep their order; ids stay unique |
| GoalRoutes.DeleteGoal | backend/routes/goalRoutes.js:251-278 | a missing or foreign goal changes nothing; otherwise the goal is removed, its expenses are unlinked and their number is reported |
| GoalRoutes.DeletedGoalIsGone | backend/routes/goalRoutes.js:271-274 | with unique ids, no goal with the deleted id remains |
| ExpenseRoutes.ApplyGoalDelta | backend/routes/expenseRoutes.js:11-41 | the table keeps its length; the result is none if and only if there is no goal id or the user owns no goal with that id, and then nothing changes |
| ExpenseRoutes.ApplyGoalDeltaSome | backend/routes/expenseRoutes.js:16-35 | otherwise exactly one goal of the user with that id is rewritten and returned, its progress moved by the delta and clamped to `[0, amount]` |
| ExpenseRoutes.UpdateGoalProgress | backend/routes/expenseRoutes.js:11-41 | the stored goals become the delta-applied table |
| ExpenseRoutes.LinkedGoalProgress | backend/routes/expenseRoutes.js:61-64 | a call made only when the expense has a goal stores the same table as an unconditional call |
| ExpenseRoutes.GoalDeltaBounds | backend/routes/expenseRoutes.js:27-28 | if every goal's progress is within `[0, amount]`, it stays there |
| ExpenseRoutes.GoalDeltaUndo | backend/routes/expenseRoutes.js:24-28 | a delta and its opposite cancel when neither is clamped |
| ExpenseRoutes.IncrementalAgreesWhenUnclamped | backend/routes/expenseRoutes.js:24-28 | without clamping, the incremental update keeps the goal consistent with the recomputed progress |
| ExpenseRoutes.IncrementalDriftsAfterClamp | backend/routes/expenseRoutes.js:27-28 | after a clamp, the incremental update and the recompute disagree (100 → 20 against 50) |
| ExpenseRoutes.NewExpense | backend/routes/expenseRoutes.js:47-58 | a new expense is active, dated now, and carries every field of the request (amount, payee, category, frequency, description, due date, goal) |
| ExpenseRoutes.PostExpense | backend/routes/expenseRoutes.js:44-74 | POST appends exactly the new expense |
| ExpenseRoutes.AddExpense | backend/routes/expenseRoutes.js:44-74 | the stored tables become the POST transition with a fresh id; users are untouched |
| ExpenseRoutes.PostExpenseCountsNewAmount | backend/routes/expenseRoutes.js:66-68 | after POST, the month budget's `spent` is the old sum plus the new amount, unless now is the window's final millisecond |
| ExpenseRoutes.PostExpenseGoal | backend/routes/expenseRoutes.js:61-64 | a linked POST moves the goal by the amount; an unlinked one changes no goal |
| ExpenseRoutes.PatchExpense | backend/routes/expenseRoutes.js:92-105 | PUT writes amount, payee, category, frequency, goal and due date from the request, keeps id, owner and date, and keeps `active` and the description when they are not given |
| ExpenseRoutes.PutExpense | backend/routes/expenseRoutes.js:77-118 | a missing or foreign expense answers "Expense not found" and changes nothing |
| ExpenseRoutes.PutOwnedExpense | backend/routes/expenseRoutes.js:87-113 | no contract of its own: the old goal loses the old amount, the row is patched, the new goal gains the new amount, and the new category's budget is recomputed; `PutExpenseRecord`, `PutExpenseNewCategoryUpToDate` and `PutExpenseKeepsOtherCategories` state its effect |
| ExpenseRoutes.UpdateOwnedExpense | backend/routes/expenseRoutes.js:88-113 | for the caller's expense at the row, the tables become the PUT transition: the old goal loses the old amount, the row is patched, the new goal gains the new amount, and the new category's budget is recomputed |
| ExpenseRoutes.UpdateExpense | backend/routes/expenseRoutes.js:77-118 | the stored tables become the PUT transition |
| ExpenseRoutes.PutExpenseRecord | backend/routes/expenseRoutes.js:92-105 | a successful PUT changes only the edited expense and returns it |
| ExpenseRoutes.RecomputeMakesUpToDate | backend/utils/updateBudgetSpent.js:11-50 | after recomputation the category's month budget caches the true sum |
| ExpenseRoutes.PutExpenseNewCategoryUpToDate | backend/routes/expenseRoutes.js:112 | after PUT, the new category's month budget is up to date |
| ExpenseRoutes.PutExpenseKeepsOtherCategories | backend/routes/expenseRoutes.js:112 | every budget of any other category is left as it was, the old category included |
| ExpenseRoutes.DelExpense | backend/routes/expenseRoutes.js:145-163 | the caller answers "Expense not found" and changes nothing if and only if they own no expense with that id; otherwise one expense is removed |
| ExpenseRoutes.DelOwnedExpense | backend/routes/expenseRoutes.js:148-158 | no contract of its own: the removal, the reversed goal delta and the recomputation of the category's budget; `DelExpenseEffect` states its effect |
| ExpenseRoutes.DeleteExpense | backend/routes/expenseRoutes.js:145-163 | the stored tables become the DELETE transition |
| ExpenseRoutes.DeleteOwnedExpense | backend/routes/expenseRoutes.js:148-158 | for the caller's expense at the row, the tables become the removal followed by the reversed goal delta and the recomputation of the category's budget |
| ExpenseRoutes.DelExpenseAt | backend/routes/expenseRoutes.js:145-163 | when the caller's expense is at a known row, DELETE is the removal of that row and answers "Expense deleted successfully" |
| ExpenseRoutes.DelExpenseEffect | backend/routes/expenseRoutes.js:148-158 | DELETE removes exactly the caller's expense, reverses its goal delta and leaves its category's budget up to date |
| ExpenseRoutes.InsertByDate | backend/routes/expenseRoutes.js:137 | insertion adds exactly one element |
| ExpenseRoutes.InsertNewestFirst | backend/routes/expenseRoutes.js:137 | insertion keeps a list sorted newest first |
| ExpenseRoutes.SortNewestFirst | backend/routes/expenseRoutes.js:137 | sorting is a permutation |
| ExpenseRoutes.SortIsNewestFirst | backend/routes/expenseRoutes.js:137 | the sorted list is newest first |
| ExpenseRoutes.ListExpensesMeaning | backend/routes/expenseRoutes.js:121-142 | GET lists exactly the user's stored expenses in the month's window (and of the goal, when one is given), each as often as it is stored, newest first |
| ExpenseRoutes.ListExpenses | backend/routes/expenseRoutes.js:121-142 | no contract of its own: the filter by user, window and goal followed by the newest-first sort; `ListExpensesMeaning` states what it lists |
| BudgetRoutes.PostBudget | backend/routes/budgetRoutes.js:10-71 | a budget is added if and only if the category has no month budget yet; the saved record has the request's amount and category, its rollover flag is set only for a strict `true`, and its `spent` is the recomputed sum; an added budget is dated by the request or else now, with nothing carried; an update rewrites the month budget's row in place, keeping its id, date and carried amount |
| BudgetRoutes.AddOrUpdateBudget | backend/routes/budgetRoutes.js:10-71 | the stored budgets become the POST transition |
| BudgetRoutes.PostBudgetIsRecompute | backend/routes/budgetRoutes.js:37-65 | updating an existing month budget is the same as writing the fields and then recomputing `spent` |
| BudgetRoutes.PostBudgetAddedIsMonthBudget | backend/routes/budgetRoutes.js:48-65 | an added budget dated in the month becomes the category's month budget |
| BudgetRoutes.Unspent | backend/routes/budgetRoutes.js:118-135 | the carried amount is never negative, and is either 0 or the previous budget minus its spent |
| BudgetRoutes.GetBudgets | backend/routes/budgetRoutes.js:74-147 | GET stores the rollover pass and lists the user's budgets in the window of the refreshed table |
| BudgetRoutes.CarryInto | backend/routes/budgetRoutes.js:118-135 | one iteration keeps the table's length; `CarryNoOp` and `RolloverAt` state which row it writes |
| BudgetRoutes.Rollover | backend/routes/budgetRoutes.js:118-135 | the loop over the previous month's rollover budgets keeps the table's length; `RolloverAt` and `RolloverIdempotent` state its effect |
| BudgetRoutes.RolloverPass | backend/routes/budgetRoutes.js:99-135 | the pass of `GET /budgets` keeps the table's length; `NoRolloverAfterDayFive` states that it writes nothing after the 5th |
| BudgetRoutes.FindInListing | backend/routes/budgetRoutes.js:120-122 | finding the category among the listed budgets gives the same budget as the table-level query |
| BudgetRoutes.NoRolloverAfterDayFive | backend/routes/budgetRoutes.js:100-103 | after the 5th day of the month, GET changes nothing: the day test fails and the listing is returned as it is (the else branch at lines 140-141) |
| BudgetRoutes.CarryIn | backend/routes/budgetRoutes.js:118-135 | one step of the loop stores the table with the previous budget's unspent amount carried into its counterpart |
| BudgetRoutes.RolloverStep | backend/routes/budgetRoutes.js:118-135 | the pass over one more previous budget is the pass so far followed by carrying that budget |
| BudgetRoutes.CarryNoOp | backend/routes/budgetRoutes.js:118-135 | a previous budget with no current counterpart or nothing unspent carries nothing |
| BudgetRoutes.RolloverAt | backend/routes/budgetRoutes.js:118-135 | after the pass, a row differs only in `rolloverAmount`, which is the amount of the last previous budget that targets it |
| BudgetRoutes.RolloverIdempotent | backend/routes/budgetRoutes.js:118-135 | running the rollover pass twice gives what one pass gives, because the amount is overwritten and not added |
| BudgetRoutes.PatchBudget | backend/routes/budgetRoutes.js:150-171 | PUT writes category, amount, strict rollover flag and date, and keeps id, owner, spent and rollover amount |
| Records.IsStrictTrue | backend/routes/budgetRoutes.js:40 | no contract of its own: only the JSON boolean `true` passes `=== true`; `PostBudget` and `PatchBudget` store the flag through it |
| BudgetRoutes.UpdateBudget | backend/routes/budgetRoutes.js:150-171 | a missing or foreign budget answers "Budget not found" and changes nothing; otherwise exactly that row is patched |
| BudgetRoutes.DeleteBudget | backend/routes/budgetRoutes.js:174-185 | a missing or foreign budget changes nothing; otherwise exactly that row is removed |
| BudgetRoutes.OwnerScoped | backend/routes/budgetRoutes.js:150-185 | with unique ids, PUT and DELETE act on the caller's budget with that id, and on no other row |
| AlertRoutes.LowBudgetAlerts | backend/routes/alertRoutes.js:18-41 | there are no more budget alerts than budgets, and all of them are low-budget alerts |
| AlertRoutes.GetAlerts | backend/routes/alertRoutes.js:9-77 | the response is the budget alerts followed by the due-soon alerts; the "No alerts found." message is sent if and only if the list is empty |
| AlertRoutes.LowBudgetAlertsExact | backend/routes/alertRoutes.js:18-41 | one alert per low budget, in budget order, with the budget's category and remaining amount |
| AlertRoutes.LowAlertMeaning | backend/routes/alertRoutes.js:24-39 | an alert comes from a positive budget whose remaining amount is at most 20% of it |
| AlertRoutes.IsLow | backend/routes/alertRoutes.js:24-34 | no contract of its own: a positive budget whose remaining amount is at most a fifth of it, in exact integer arithmetic |
| AlertRoutes.CategorySpent | backend/routes/alertRoutes.js:26-31 | no contract of its own: the sum of the user's expenses in the category, with no active or date filter; `NoExpensesNotLow` states the empty case |
| AlertRoutes.OverBudgetIsLow | backend/routes/alertRoutes.js:31-34 | a positive budget that is spent or overspent always raises an alert |
| AlertRoutes.NonPositiveBudgetIsNotLow | backend/routes/alertRoutes.js:24 | a zero or negative budget never raises one |
| AlertRoutes.NoExpensesNotLow | backend/routes/alertRoutes.js:26-34 | with no expense in the category, the spent amount is 0 and a positive budget is not low |
| AlertRoutes.UpcomingAlertsExact | backend/routes/alertRoutes.js:48-61 | one due-soon alert per expense of the user due in `[now, now + 7 days]` |
| AlertRoutes.UpcomingAlerts | backend/routes/alertRoutes.js:48-61 | there are no more due-soon alerts than expenses, and all of them are due-soon alerts |
| AlertRoutes.UpcomingAlertsInWindow | backend/routes/alertRoutes.js:53-56 | every due-soon alert is dated within that week |
| AlertRoutes.DueWithinWeek | backend/routes/alertRoutes.js:53-56 | no contract of its own: an expense of the user with a due date in `[now, now + 7 days]`, both ends included; `UpcomingAlertsExact` states its use |
| AlertRoutes.BudgetAlertsFirst | backend/routes/alertRoutes.js:64 | no budget alert follows a due-soon alert |
| AlertRoutes.NoAlertsIff | backend/routes/alertRoutes.js:64-70 | the list is empty if and only if no budget is low and no expense is due within the week |
| AlertRoutes.NoLowIff | backend/routes/alertRoutes.js:18-41 | there are no budget alerts if and only if no budget is low |
| AlertRoutes.NoDueIff | backend/routes/alertRoutes.js:48-61 | there are no due-soon alerts if and only if no expense is due within the week |
| BudgetService.CreateBudget | backend/services/budget.service.js:6-22 | refused with "Budget amount must be positive", and nothing stored, if and only if the amount is ≤ 0; otherwise one record with the data's fields is appended; an absent or zero `spent` becomes 0, and an absent rollover flag, rollover amount or date takes its default (no rollover, 0, now) |
| BudgetService.CreateBudgetIn | backend/services/budget.service.js:6-22 | the (table, result) pair equals the transition function on the old table; ids stay unique and the id is drawn from the counter |
| BudgetService.GetBudgetById | backend/services/budget.service.js:29-35 | "Budget not found" if and only if no record has the id; otherwise the record with that id |
| BudgetService.BudgetsOfExact | backend/services/budget.service.js:24-27 | a budget is listed if and only if it is stored and belongs to the user |
| BudgetService.BudgetsOf | backend/services/budget.service.js:24-27 | every listed budget belongs to the user, and none is listed more often than it is stored |
| BudgetService.ApplyBudgetPatch | backend/services/budget.service.js:54-58 | a patch keeps id and owner, and an empty patch is the identity |
| BudgetService.UpdateBudget | backend/services/budget.service.js:37-61 | with the corrected amount guard of "## Findings": an error changes nothing; a success patches exactly the caller's record with that id, and a given amount is then positive. The code as written is `BudgetService.UpdateBudgetAsWritten` |
| BudgetService.UpdateBudgetAsWritten | backend/services/budget.service.js:37-61 | the code as written: an error changes nothing; a success patches exactly the caller's record with that id, and a given amount is then at least 0 |
| BudgetService.AsWrittenAgreesOffZero | backend/services/budget.service.js:49 | the written and corrected updates agree on every patch that does not set the amount to 0 |
| BudgetService.ZeroAmountStoredAsWritten | backend/services/budget.service.js:49-58 | on the caller's own budget, `{budget: 0}` is stored as written, and refused with no change by the corrected update |
| BudgetService.UpdateBudgetIn | backend/services/budget.service.js:37-61 | the (table, result) pair equals the transition function on the old table; ids stay unique |
| BudgetService.UpdateBudgetChecks | backend/services/budget.service.js:39-51 | not found, not the owner, and a non-positive amount are checked in that order, each exactly when it applies |
| BudgetService.PatchOnlyGivenFields | backend/services/budget.service.js:54-58 | a field absent from the patch keeps its value, and a present one takes the patch's value |
| BudgetService.PatchIdempotent | backend/services/budget.service.js:54-58 | applying a patch twice equals applying it once |
| BudgetService.RejectsAmountAsWritten | backend/services/budget.service.js:49 | the guard as written: a present, truthy, non-positive amount |
| BudgetService.ZeroAmountSlipsThrough | backend/services/budget.service.js:49 | the guard as written lets an amount of 0 through, whereas create and the corrected guard refuse it |
| BudgetService.AsWrittenGuardDiffers | backend/services/budget.service.js:49 | the written and corrected guards differ exactly on an amount of 0 |
| BudgetService.UpdateAgreesWithCreate | backend/services/budget.service.js:6-61 | the corrected update refuses exactly the amounts create refuses |
| BudgetService.DeleteBudget | backend/services/budget.service.js:63-77 | an error changes nothing; a success removes one record and answers "Budget deleted successfully" |
| BudgetService.DeleteBudgetIn | backend/services/budget.service.js:63-77 | the (table, result) pair equals the transition function on the old table; ids stay unique |
| BudgetService.DeleteBudgetEffect | backend/services/budget.service.js:63-77 | "Budget not found" if and only if no record has the id; "Unauthorized" if and only if the record with the id belongs to another user; after a success the id is gone |
| BudgetService.LatestBudget | backend/services/budget.service.js:79-88 | finds a budget of the user and category with no later-dated match (the earliest row wins a tie); none if and only if nothing matches |
| BudgetService.IncrementSpent | backend/services/budget.service.js:79-95 | adds the amount to that budget's `spent` and changes nothing else; with no match, none and nothing changes |
| BudgetService.IncrementSpentIn | backend/services/budget.service.js:79-95 | the (table, result) pair equals the transition function on the old table; ids stay unique |
| BudgetService.IncrementTargetsLatest | backend/services/budget.service.js:80-91 | the incremented budget is the latest-dated match |
| BudgetService.IncrementUndo | backend/services/budget.service.js:91 | incrementing by an amount and then by its opposite restores the table |
| BudgetService.IncrementsAdd | backend/services/budget.service.js:91 | two increments equal one increment by their sum |
| ExpenseService.CreateExpense | backend/services/expense.service.js:5-16 | refused with "Amount must be positive", and nothing stored, if and only if the amount is ≤ 0; otherwise one expense with the data's fields is appended, active and dated now where the data does not say otherwise |
| ExpenseService.CreateExpenseIn | backend/services/expense.service.js:5-16 | the (table, result) pair equals the transition function on the old table; ids stay unique and the id is drawn from the counter |
| ExpenseService.GetExpenseById | backend/services/expense.service.js:23-29 | "Expense not found" if and only if no record has the id; otherwise the record with that id |
| ExpenseService.ExpensesOfExact | backend/services/expense.service.js:18-21 | an expense is listed if and only if it is stored and belongs to the user |
| ExpenseService.ExpensesOf | backend/services/expense.service.js:18-21 | every listed expense belongs to the user, and none is listed more often than it is stored |
| ExpenseService.CreatedExpenseListed | backend/services/expense.service.js:5-21 | the owner's listing gains exactly the created expense, at its end, and other users' listings are unchanged |
| ExpenseService.ApplyExpensePatch | backend/services/expense.service.js:43-47 | a patch keeps id and owner, and an empty patch is the identity |
| ExpenseService.UpdateExpense | backend/services/expense.service.js:31-50 | an error changes nothing; a success patches exactly one record with that id, owned by the caller |
| ExpenseService.UpdateExpenseIn | backend/services/expense.service.js:31-50 | the (table, result) pair equals the transition function on the old table; ids stay unique |
| ExpenseService.UpdateExpenseChecks | backend/services/expense.service.js:33-41 | not found and then not the owner, each exactly when it applies |
| ExpenseService.UpdateTouchesOneRecord | backend/services/expense.service.js:43-47 | with unique ids, every other expense is unchanged |
| ExpenseService.ExpensePatchOnlyGivenFields | backend/services/expense.service.js:43-47 | a field absent from the patch keeps its value, and a present one takes the patch's value |
| ExpenseService.UpdateStoresAnyAmount | backend/services/expense.service.js:31-50 | an update stores a negative amount, which create would refuse: update has no amount check |
| ExpenseService.DeleteExpense | backend/services/expense.service.js:52-66 | an error changes nothing; a success removes one record |
| ExpenseService.DeleteExpenseIn | backend/services/expense.service.js:52-66 | the (table, result) pair equals the transition function on the old table; ids stay unique |
| ExpenseService.DeleteExpenseEffect | backend/services/expense.service.js:52-66 | not found and not the owner, each exactly when it applies; after a success the id is gone and the user's listing loses exactly that expense |
| UserService.RegisterUser | backend/services/user.service.js:5-22 | refused with "User with this email already exists", and nothing stored, if and only if the e-mail is taken; otherwise the user is appended; unique e-mails are preserved |
| UserService.FindByEmail | backend/services/user.service.js:9 | a user found has that e-mail; none is found if and only if no user has it |
| UserService.RegisterUserIn | backend/services/user.service.js:5-22 | the (table, result) pair equals the transition function on the old table; ids stay unique and the id is drawn from the counter |
| UserService.RegisterAllKeepsUnique | backend/services/user.service.js:5-22 | any run of registrations keeps e-mails unique |
| UserService.RegisterAllExtends | backend/services/user.service.js:5-22 | registrations only append: the old table is a prefix of the new one |
| UserService.RegisterAllCovers | backend/services/user.service.js:5-22 | after a run, every requested e-mail belongs to some user |
| UserService.GetUserByFirebaseUid | backend/services/user.service.js:24-31 | "User not found" if and only if no user has the uid; otherwise a user with that uid |
| UserService.ApplyUserPatch | backend/services/user.service.js:39-43 | keeps id and uid; each field the patch gives is written, and each field it does not give is kept |
| UserService.UpdateUser | backend/services/user.service.js:33-46 | "User not found", and nothing changed, if and only if no user has the uid; the table keeps its length |
| UserService.UpdateUserIn | backend/services/user.service.js:33-46 | the (table, result) pair equals the transition function on the old table; ids stay unique |
| UserService.UpdateUserWritesFoundRow | backend/services/user.service.js:33-46 | with unique ids, the row written by id is the row found by uid, and no other row changes |
| UserService.UpdateCanDuplicateEmail | backend/services/user.service.js:33-46 | an update can give a user another user's e-mail, which registration would refuse |
| Auth.Split | backend/middleware/verifyFirebaseToken.js:20 | `split(' ')` gives at least one piece, and no piece contains a space |
| Auth.SplitJoin | backend/middleware/verifyFirebaseToken.js:20 | joining the pieces with spaces gives back the header |
| Auth.CheckHeader | backend/middleware/verifyFirebaseToken.js:7-24 | "no token" if and only if the header is absent or empty; "invalid format" if and only if it lacks the `Bearer ` prefix; a token handed on is non-empty and free of spaces |
| Auth.FailureResponse | backend/middleware/verifyFirebaseToken.js:36-55 | a verification failure always answers with a code |
| Auth.Authenticate | backend/middleware/verifyFirebaseToken.js:4-56 | the request passes if and only if the header yields a token that the verifier accepts, and then as the verifier's uid |
| Auth.BearerToken | backend/middleware/verifyFirebaseToken.js:15-20 | with the prefix, the token is the text after it up to the next space |
| Auth.TokenOf | backend/middleware/verifyFirebaseToken.js:20 | the second piece of `split(' ')`, when there is one, contains no space |
| Auth.HeaderRejectionIgnoresVerifier | backend/middleware/verifyFirebaseToken.js:7-24 | a header that fails a check is answered without the verifier and without a code |
| Auth.HeaderMessages | backend/middleware/verifyFirebaseToken.js:7-24 | each of the three header messages is sent exactly when its check fails |
| Auth.FailureCodes | backend/middleware/verifyFirebaseToken.js:40-55 | an expired token gives "token-expired", a revoked one "token-revoked", and every other failure "invalid-token" |
| Auth.EmptyTokenCases | backend/middleware/verifyFirebaseToken.js:20-24 | "Bearer " and "Bearer  x" are both refused as an empty token |
| Auth.WholeTokenHandedOn | backend/middleware/verifyFirebaseToken.js:15-31 | "Bearer " + w hands on exactly w |
| Auth.ExtraPiecesIgnored | backend/middleware/verifyFirebaseToken.js:20 | anything after a second space is ignored |

## Left out

- I/O is not modelled: HTTP framing, status codes beyond the error kind, JSON, logging, MongoDB
  queries and sessions, and Firebase token verification, which is the `verify` parameter.
- `try`/`catch` blocks that answer 500 on a database error: the model's database never fails.
- Concurrency: one request is modelled at a time. `Promise.all` and the awaited sequences are
  taken in program order.
- Time zones and UTC vs local time: dates are calendar values in one zone. The clock is the
  parameter `now`, and one `now` stands for every clock read of a request. Clock years outside
  1–9999 are excluded by `ValidNow`. For a clock year 1–99 the current-month window falls in
  year 1900 + y, as the Date constructor gives, and not in the clock's own month. The lemmas
  that relate the window to the clock's month (`Dates.MissingTokenIsCurrentMonth`,
  `Dates.CurrentMonthWindow`, `Dates.CurrentMonthRangeMembership`,
  `ExpenseRoutes.PostExpenseCountsNewAmount`) therefore also require a clock year of at least 100.
- Floating point: amounts are integers (minor units). `remaining <= 0.2 * budget` is
  `5 * remaining <= budget`, and the goal's `monthlyTarget` is a `real`.
- Alert message text and `toFixed`/`toDateString` formatting: an alert carries the values the
  message is built from.
- GET `/goals`, GET `/goals/:id`, GET `/goals/:id/expenses`, `/expenses/predict`, the income,
  chat and history routes: these are simple reads or outside the modelled core.
- `undefined`, `NaN` and wrongly typed request fields: a request is a typed datatype, and an
  absent optional field is `None`.
- Patches cannot set a field to `null`; `firebaseUid` and `_id` inside a patch are not modelled.
- `backend/models/User.js` is not part of this model; a user is the datatype `Records.User`.
- BudgetService.CreateBudget: an absent amount is not modelled, because the amount is an
  `int`. The tests expect the service to pass a date of its own, while the code passes the data
  through; the model follows the code and uses the schema default date, now.
- BudgetService.LatestBudget: on equal dates the earliest row wins. MongoDB does not fix the
  order of ties under `sort({date: -1})`, so this is one permitted choice.
- UserService.RegisterUser: the error is modelled as `Validation` with the service's message.
  The source throws a plain `Error`.
- BudgetRoutes.PostBudget: the budget's date may fall outside the current month. The
  add-or-update check then still looks only at the current month, as the source does.
- ExpenseRoutes.PutExpense: only the new category's budget is recomputed, so the old category's
  `spent` stays stale when an expense changes category. `PutExpenseKeepsOtherCategories` states
  this.

## Findings

| source | as written | input that shows it | evidently intended | confidence | as-written member | corrected member |
|---|---|---|---|---|---|---|
| backend/services/budget.service.js:49 | `updateData.budget && updateData.budget <= 0` tests truthiness first, so an amount of 0 skips the check | `updateBudget(id, uid, {budget: 0})` on the caller's budget stores an amount of 0 | reject every non-positive amount, as `createBudget` does | medium, not executed | BudgetService.UpdateBudgetAsWritten with its guard BudgetService.RejectsAmountAsWritten (shown by BudgetService.ZeroAmountStoredAsWritten and BudgetService.ZeroAmountSlipsThrough) | BudgetService.RejectsAmount (used by BudgetService.UpdateBudget, with BudgetService.UpdateAgreesWithCreate) |
