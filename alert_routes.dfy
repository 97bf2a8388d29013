/**
 * backend/routes/alertRoutes.js: the alert list of `GET /alerts` — low-budget
 * alerts for the user's budgets, then one alert per expense due within a week.
 * Nothing stored is changed.
 */
module AlertRoutes {
  import opened Wrappers
  import opened Dates
  import opened Seqs
  import opened Records

  /**
   * An alert. A low-budget alert carries the budget's category and remaining
   * amount; a due-soon alert (category "Upcoming Expense") the expense's amount,
   * category and due date.
   */
  datatype Alert =
    | LowBudget(category: string, remaining: int)
    | DueSoon(amount: int, expenseCategory: string, dueDate: DateTime)

  /** The `category` field of the alert as sent. */
  function AlertCategory(a: Alert): string {
    match a
    case LowBudget(category, _) => category
    case DueSoon(_, _, _) => "Upcoming Expense"
  }

  /** The aggregation `$match: {firebaseUid, category}`: no active flag and no date window. */
  predicate InCategory(e: Expense, uid: Uid, category: string) {
    e.uid == uid && e.category == category
  }

  /** `totalSpent` of the aggregation, or 0 when nothing matches. */
  function CategorySpent(expenses: seq<Expense>, uid: Uid, category: string): int {
    FilteredTotal(expenses, (e: Expense) => InCategory(e, uid, category))
  }

  /**
   * The low-budget test: a positive budget whose remaining amount is at most a fifth
   * of it, `remaining <= 0.2 * budget` in exact arithmetic.
   */
  predicate IsLow(b: Budget, expenses: seq<Expense>, uid: Uid) {
    b.budget > 0 && 5 * (b.budget - CategorySpent(expenses, uid, b.category)) <= b.budget
  }

  function LowAlertOf(b: Budget, expenses: seq<Expense>, uid: Uid): Alert {
    LowBudget(b.category, b.budget - CategorySpent(expenses, uid, b.category))
  }

  /** The alerts the loop pushes for the budgets `bs`, in order. */
  function LowBudgetAlerts(bs: seq<Budget>, expenses: seq<Expense>, uid: Uid): (r: seq<Alert>)
    ensures |r| <= |bs|
    ensures forall i :: 0 <= i < |r| ==> r[i].LowBudget?
  {
    if bs == [] then []
    else
      var b := bs[|bs| - 1];
      LowBudgetAlerts(bs[..|bs| - 1], expenses, uid) + (if IsLow(b, expenses, uid) then [LowAlertOf(b, expenses, uid)] else [])
  }

  /** The due-date query `{firebaseUid, dueDate: {$gte: now, $lte: in7Days}}`. */
  predicate DueWithinWeek(e: Expense, uid: Uid, now: DateTime)
    requires Valid(now)
  {
    e.uid == uid && e.dueDate.Some? && NotAfter(now, e.dueDate.value) && NotAfter(e.dueDate.value, AddDays(now, 7))
  }

  /** One due-soon alert per expense the query returns, in table order. */
  function UpcomingAlerts(expenses: seq<Expense>, uid: Uid, now: DateTime): (r: seq<Alert>)
    requires Valid(now)
    ensures |r| <= |expenses|
    ensures forall i :: 0 <= i < |r| ==> r[i].DueSoon?
  {
    var due := Filter(expenses, (e: Expense) => DueWithinWeek(e, uid, now));
    seq(|due|, i requires 0 <= i < |due| => DueSoon(due[i].amount, due[i].category, due[i].dueDate.GetOr(now)))
  }

  /** The response of `GET /alerts`: the alerts, and the message sent with an empty list. */
  datatype AlertsResponse = AlertsResponse(alerts: seq<Alert>, message: Option<string>)

  method GetAlerts(db: Database, uid: Uid, now: DateTime) returns (res: AlertsResponse)
    requires ValidNow(now)
    ensures var mine := Filter(db.budgets, (b: Budget) => b.uid == uid);
      res.alerts == LowBudgetAlerts(mine, db.expenses, uid) + UpcomingAlerts(db.expenses, uid, now)
    ensures res.message.Some? <==> res.alerts == []
    ensures res.message.Some? ==> res.message.value == "No alerts found."
  {
    var budgets := Filter(db.budgets, (b: Budget) => b.uid == uid);
    var budgetAlerts: seq<Alert> := [];
    var k := 0;
    while k < |budgets|
      invariant 0 <= k <= |budgets|
      invariant budgetAlerts == LowBudgetAlerts(budgets[..k], db.expenses, uid)
    {
      var budgetDoc := budgets[k];
      assert budgets[..k + 1][..k] == budgets[..k];
      if budgetDoc.budget > 0 {
        var spent := FilteredTotal(db.expenses, (e: Expense) => InCategory(e, uid, budgetDoc.category));
        var remaining := budgetDoc.budget - spent;
        if 5 * remaining <= budgetDoc.budget {
          budgetAlerts := budgetAlerts + [LowBudget(budgetDoc.category, remaining)];
        }
      }
      k := k + 1;
    }
    assert budgets[..k] == budgets;
    var expenseAlerts := UpcomingAlerts(db.expenses, uid, now);
    var alerts := budgetAlerts + expenseAlerts;
    if |alerts| > 0 {
      res := AlertsResponse(alerts, None);
    } else {
      res := AlertsResponse([], Some("No alerts found."));
    }
  }

  // ---------------------------------------------------------------------------
  // Properties
  // ---------------------------------------------------------------------------

  /**
   * The budget alerts are exactly one alert per low budget, in budget order: the
   * `k`-th alert belongs to the `k`-th budget that passes the test.
   */
  lemma {:induction false} LowBudgetAlertsExact(bs: seq<Budget>, expenses: seq<Expense>, uid: Uid)
    ensures var low := Filter(bs, (b: Budget) => IsLow(b, expenses, uid));
      var r := LowBudgetAlerts(bs, expenses, uid);
      |r| == |low| && forall k :: 0 <= k < |r| ==> r[k] == LowAlertOf(low[k], expenses, uid)
    decreases |bs|
  {
    if bs != [] {
      var p := (b: Budget) => IsLow(b, expenses, uid);
      var init := bs[..|bs| - 1];
      var b := bs[|bs| - 1];
      LowBudgetAlertsExact(init, expenses, uid);
      assert bs == init + [b];
      FilterSnoc(init, b, p);
    }
  }

  /** Only a positive budget can raise an alert, and a raised alert's remaining is at most a fifth of it. */
  lemma LowAlertMeaning(bs: seq<Budget>, expenses: seq<Expense>, uid: Uid, k: nat)
    requires k < |LowBudgetAlerts(bs, expenses, uid)|
    ensures var low := Filter(bs, (b: Budget) => IsLow(b, expenses, uid));
      var a := LowBudgetAlerts(bs, expenses, uid)[k];
      && k < |low| && low[k] in bs && low[k].budget > 0
      && a.category == low[k].category
      && 5 * a.remaining <= low[k].budget
  {
    LowBudgetAlertsExact(bs, expenses, uid);
    var low := Filter(bs, (b: Budget) => IsLow(b, expenses, uid));
    assert low[k] in multiset(bs);
  }

  /** A positive budget that is spent in full or overspent always raises an alert. */
  lemma OverBudgetIsLow(b: Budget, expenses: seq<Expense>, uid: Uid)
    requires b.budget > 0 && CategorySpent(expenses, uid, b.category) >= b.budget
    ensures IsLow(b, expenses, uid)
  {
  }

  /** A zero or negative budget never does. */
  lemma NonPositiveBudgetIsNotLow(b: Budget, expenses: seq<Expense>, uid: Uid)
    requires b.budget <= 0
    ensures !IsLow(b, expenses, uid)
  {
  }

  /** With no expense of the category, the spent amount is 0, so a positive budget is not low. */
  lemma NoExpensesNotLow(b: Budget, expenses: seq<Expense>, uid: Uid)
    requires forall j :: 0 <= j < |expenses| ==> !InCategory(expenses[j], uid, b.category)
    requires b.budget > 0
    ensures CategorySpent(expenses, uid, b.category) == 0
    ensures !IsLow(b, expenses, uid)
  {
    FilterNone(expenses, (e: Expense) => InCategory(e, uid, b.category));
  }

  /** Exactly one due-soon alert per expense of the user due in `[now, now + 7 days]`, for that expense. */
  lemma UpcomingAlertsExact(expenses: seq<Expense>, uid: Uid, now: DateTime)
    requires Valid(now)
    ensures var due := Filter(expenses, (e: Expense) => DueWithinWeek(e, uid, now));
      var r := UpcomingAlerts(expenses, uid, now);
      && |r| == |due|
      && (forall k :: 0 <= k < |r| ==> r[k] == DueSoon(due[k].amount, due[k].category, due[k].dueDate.value))
      && (forall e :: e in expenses && DueWithinWeek(e, uid, now) ==> e in due)
  {
  }

  /** Every due-soon alert is dated within the week starting now. */
  lemma UpcomingAlertsInWindow(expenses: seq<Expense>, uid: Uid, now: DateTime, k: nat)
    requires Valid(now) && k < |UpcomingAlerts(expenses, uid, now)|
    ensures var a := UpcomingAlerts(expenses, uid, now)[k];
      a.DueSoon? && NotAfter(now, a.dueDate) && NotAfter(a.dueDate, AddDays(now, 7))
  {
  }

  /** The response lists every budget alert, in budget order, before every due-soon alert. */
  lemma BudgetAlertsFirst(bs: seq<Budget>, expenses: seq<Expense>, uid: Uid, now: DateTime)
    requires Valid(now)
    ensures var alerts := LowBudgetAlerts(bs, expenses, uid) + UpcomingAlerts(expenses, uid, now);
      forall i, j :: 0 <= i < j < |alerts| && alerts[j].LowBudget? ==> alerts[i].LowBudget?
  {
  }

  /** The list is empty exactly when no budget is low and no expense is due within the week. */
  lemma {:induction false} NoAlertsIff(bs: seq<Budget>, expenses: seq<Expense>, uid: Uid, now: DateTime)
    requires Valid(now)
    ensures LowBudgetAlerts(bs, expenses, uid) + UpcomingAlerts(expenses, uid, now) == []
      <==> (forall j :: 0 <= j < |bs| ==> !IsLow(bs[j], expenses, uid))
           && (forall j :: 0 <= j < |expenses| ==> !DueWithinWeek(expenses[j], uid, now))
  {
    NoLowIff(bs, expenses, uid);
    NoDueIff(expenses, uid, now);
  }

  lemma NoLowIff(bs: seq<Budget>, expenses: seq<Expense>, uid: Uid)
    ensures LowBudgetAlerts(bs, expenses, uid) == [] <==> forall j :: 0 <= j < |bs| ==> !IsLow(bs[j], expenses, uid)
  {
    var p := (b: Budget) => IsLow(b, expenses, uid);
    LowBudgetAlertsExact(bs, expenses, uid);
    if forall j :: 0 <= j < |bs| ==> !IsLow(bs[j], expenses, uid) {
      FilterNone(bs, p);
    }
  }

  lemma NoDueIff(expenses: seq<Expense>, uid: Uid, now: DateTime)
    requires Valid(now)
    ensures UpcomingAlerts(expenses, uid, now) == [] <==> forall j :: 0 <= j < |expenses| ==> !DueWithinWeek(expenses[j], uid, now)
  {
    var q := (e: Expense) => DueWithinWeek(e, uid, now);
    if forall j :: 0 <= j < |expenses| ==> !DueWithinWeek(expenses[j], uid, now) {
      FilterNone(expenses, q);
    }
  }
}
