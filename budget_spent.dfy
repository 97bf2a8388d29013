/**
 * backend/utils/updateBudgetSpent.js: recompute a budget's cached `spent` from
 * scratch as the sum of the user's active expenses of that category dated in the
 * current month.
 */
module BudgetSpent {
  import opened Wrappers
  import opened Dates
  import opened Seqs
  import opened Records

  /** The budget query `{firebaseUid, category, date: {$gte: start, $lt: end}}`. */
  predicate IsMonthBudget(b: Budget, uid: Uid, category: string, r: DateRange) {
    b.uid == uid && b.category == category && InRange(b.date, r)
  }

  /** The expense query of the recompute: same user and category, in the window, `active: true`. */
  predicate CountsTowardSpent(e: Expense, uid: Uid, category: string, r: DateRange) {
    e.uid == uid && e.category == category && InRange(e.date, r) && e.active
  }

  /** The amount the recompute writes into `spent`. */
  function SpentInRange(expenses: seq<Expense>, uid: Uid, category: string, r: DateRange): int {
    FilteredTotal(expenses, e => CountsTowardSpent(e, uid, category, r))
  }

  /** The position of the budget the recompute updates: the first one of the month. */
  function MonthBudgetIndex(budgets: seq<Budget>, uid: Uid, category: string, r: DateRange): Option<nat> {
    IndexOf(budgets, b => IsMonthBudget(b, uid, category, r))
  }

  /**
   * The budget table after `updateBudgetSpent(uid, category)`, and the budget the
   * call returns (none when the month has no budget for that category).
   */
  function RecomputeSpent(budgets: seq<Budget>, expenses: seq<Expense>, uid: Uid, category: string, r: DateRange)
    : (out: (seq<Budget>, Option<Budget>))
    ensures |out.0| == |budgets|
    ensures out.1.None? <==> forall j :: 0 <= j < |budgets| ==> !IsMonthBudget(budgets[j], uid, category, r)
    ensures out.1.None? ==> out.0 == budgets
  {
    match MonthBudgetIndex(budgets, uid, category, r)
    case None => (budgets, None)
    case Some(i) =>
      var b := budgets[i].(spent := SpentInRange(expenses, uid, category, r));
      (budgets[i := b], Some(b))
  }

  /**
   * When a budget is returned, it is the first month budget of the category, with
   * `spent` set to the in-window sum and written back in place.
   */
  lemma RecomputeSpentSome(budgets: seq<Budget>, expenses: seq<Expense>, uid: Uid, category: string, r: DateRange)
    ensures var out := RecomputeSpent(budgets, expenses, uid, category, r);
      out.1.Some? ==>
      exists i :: (&& 0 <= i < |budgets| && IsMonthBudget(budgets[i], uid, category, r)
                   && (forall j :: 0 <= j < i ==> !IsMonthBudget(budgets[j], uid, category, r))
                   && out.0 == budgets[i := out.1.value]
                   && out.1.value == budgets[i].(spent := SpentInRange(expenses, uid, category, r)))
  {
    match MonthBudgetIndex(budgets, uid, category, r)
    case None =>
    case Some(i) =>
      assert IsMonthBudget(budgets[i], uid, category, r);
  }

  /** `updateBudgetSpent(userId, category)` against the store, with the clock injected. */
  method UpdateBudgetSpent(db: Database, uid: Uid, category: string, now: DateTime) returns (r: Option<Budget>)
    requires db.Valid() && ValidNow(now)
    modifies db`budgets
    ensures db.Valid()
    ensures (db.budgets, r) == RecomputeSpent(old(db.budgets), db.expenses, uid, category, CurrentMonthRange(now))
  {
    var range := GetDateRangeFromMonth(Some(CurrentMonthToken(now)), now);
    CurrentMonthRangeIsResolved(now);
    var found := IndexOf(db.budgets, b => IsMonthBudget(b, uid, category, range));
    if found.None? {
      return None;
    }
    var i := found.value;
    var totalSpent := FilteredTotal(db.expenses, e => CountsTowardSpent(e, uid, category, range));
    var budget := db.budgets[i].(spent := totalSpent);
    assert BudgetIds(db.budgets[i := budget]) == BudgetIds(db.budgets);
    db.budgets := db.budgets[i := budget];
    r := Some(budget);
  }

  // ---------------------------------------------------------------------------
  // Properties
  // ---------------------------------------------------------------------------

  /**
   * After the recompute the updated budget's `spent` is exactly the sum of the
   * user's active expenses of that category in the window; nothing else in the
   * budget and no other budget changes.
   */
  lemma RecomputeSpentSetsSum(budgets: seq<Budget>, expenses: seq<Expense>, uid: Uid, category: string, r: DateRange, i: nat)
    requires i < |budgets| && IsMonthBudget(budgets[i], uid, category, r)
    requires forall j :: 0 <= j < i ==> !IsMonthBudget(budgets[j], uid, category, r)
    ensures var (t, b) := RecomputeSpent(budgets, expenses, uid, category, r);
      && b == Some(t[i])
      && t[i].spent == SpentInRange(expenses, uid, category, r)
      && t[i].(spent := budgets[i].spent) == budgets[i]
      && forall j :: 0 <= j < |t| && j != i ==> t[j] == budgets[j]
  {
  }

  /** `spent` is overwritten, never incremented: the matched budget's old value has no influence. */
  lemma {:induction false} PriorSpentIrrelevant(budgets: seq<Budget>, expenses: seq<Expense>, uid: Uid, category: string,
                                                r: DateRange, i: nat, stale: int)
    requires i < |budgets| && MonthBudgetIndex(budgets, uid, category, r) == Some(i)
    ensures RecomputeSpent(budgets[i := budgets[i].(spent := stale)], expenses, uid, category, r)
      == RecomputeSpent(budgets, expenses, uid, category, r)
  {
    var b' := budgets[i := budgets[i].(spent := stale)];
    IndexOfCongruent(budgets, b', uid, category, r);
    assert b'[i := b'[i].(spent := SpentInRange(expenses, uid, category, r))]
        == budgets[i := budgets[i].(spent := SpentInRange(expenses, uid, category, r))];
  }

  /** Changing only `spent` does not move the first budget of the month. */
  lemma {:induction false} IndexOfCongruent(a: seq<Budget>, b: seq<Budget>, uid: Uid, category: string, r: DateRange)
    requires |a| == |b| && forall j :: 0 <= j < |a| ==> a[j].(spent := 0) == b[j].(spent := 0)
    ensures MonthBudgetIndex(a, uid, category, r) == MonthBudgetIndex(b, uid, category, r)
    decreases |a|
  {
    if a != [] {
      assert a[0].(spent := 0).date == a[0].date && b[0].(spent := 0).date == b[0].date;
      IndexOfCongruent(a[1..], b[1..], uid, category, r);
    }
  }

  /** The matched budget depends only on each row's owner, category and date. */
  lemma {:induction false} MonthBudgetIndexKeys(a: seq<Budget>, b: seq<Budget>, uid: Uid, category: string, r: DateRange)
    requires |a| == |b|
    requires forall j :: 0 <= j < |a| ==> a[j].uid == b[j].uid && a[j].category == b[j].category && a[j].date == b[j].date
    ensures MonthBudgetIndex(a, uid, category, r) == MonthBudgetIndex(b, uid, category, r)
    decreases |a|
  {
    if a != [] {
      MonthBudgetIndexKeys(a[1..], b[1..], uid, category, r);
    }
  }

  /** Idempotence: a second recompute over the same expenses changes nothing. */
  lemma RecomputeSpentIdempotent(budgets: seq<Budget>, expenses: seq<Expense>, uid: Uid, category: string, r: DateRange)
    ensures var (t, b) := RecomputeSpent(budgets, expenses, uid, category, r);
      RecomputeSpent(t, expenses, uid, category, r) == (t, b)
  {
    var (t, b) := RecomputeSpent(budgets, expenses, uid, category, r);
    var k := MonthBudgetIndex(budgets, uid, category, r);
    if k.Some? {
      PriorSpentIrrelevant(budgets, expenses, uid, category, r, k.value, t[k.value].spent);
      assert budgets[k.value := budgets[k.value].(spent := t[k.value].spent)] == t;
    }
  }

  /**
   * Adding an expense moves the recomputed sum by its amount exactly when it is
   * active, of that user and category, and dated inside the half-open window.
   */
  lemma SpentInRangeSnoc(expenses: seq<Expense>, e: Expense, uid: Uid, category: string, r: DateRange)
    ensures SpentInRange(expenses + [e], uid, category, r)
      == SpentInRange(expenses, uid, category, r) + (if CountsTowardSpent(e, uid, category, r) then e.amount else 0)
  {
    FilteredTotalSnoc(expenses, e, e => CountsTowardSpent(e, uid, category, r));
  }

  /** An expense that is inactive, of another user or category, or dated at `endDate` is not counted. */
  lemma ExcludedExpenses(e: Expense, uid: Uid, category: string, r: DateRange)
    requires !e.active || e.uid != uid || e.category != category || e.date == r.endDate
    ensures !CountsTowardSpent(e, uid, category, r)
  {
  }

  /** The sum depends only on the expenses that pass the query. */
  lemma SpentIgnoresOthers(expenses: seq<Expense>, others: seq<Expense>, uid: Uid, category: string, r: DateRange)
    requires forall j :: 0 <= j < |others| ==> !CountsTowardSpent(others[j], uid, category, r)
    ensures SpentInRange(expenses + others, uid, category, r) == SpentInRange(expenses, uid, category, r)
  {
    var p := (e: Expense) => CountsTowardSpent(e, uid, category, r);
    FilterAppend(expenses, others, p);
    FilterNone(others, p);
    assert Filter(expenses, p) + [] == Filter(expenses, p);
  }
}
