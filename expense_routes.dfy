/**
 * backend/routes/expenseRoutes.js: the incremental goal-progress update
 * (`updateGoalProgress`) and the create, update and delete handlers that cascade
 * into the linked goal and the category's budget, plus the listing query.
 */
module ExpenseRoutes {
  import opened Wrappers
  import opened Dates
  import opened Seqs
  import opened Records
  import opened BudgetSpent
  import opened GoalRoutes

  // ---------------------------------------------------------------------------
  // updateGoalProgress: incremental clamped delta
  // ---------------------------------------------------------------------------

  /**
   * The goals table after `updateGoalProgress(goalId, userId, change)`, and the
   * goal it returns: nothing happens without an id or an owned goal; otherwise
   * the first owned goal's progress moves by `change`, clamped into `[0, amount]`.
   */
  function ApplyGoalDelta(goals: seq<Goal>, goalId: Option<Id>, uid: Uid, change: int)
    : (out: (seq<Goal>, Option<Goal>))
    ensures |out.0| == |goals|
    ensures out.1.None? <==> goalId.None? || forall j :: 0 <= j < |goals| ==> !IsOwnedGoal(goals[j], goalId.value, uid)
    ensures out.1.None? ==> out.0 == goals
  {
    if goalId.None? then (goals, None)
    else
      match IndexOf(goals, (g: Goal) => IsOwnedGoal(g, goalId.value, uid))
      case None => (goals, None)
      case Some(i) =>
        var g := goals[i].(progress := ClampProgress(goals[i].progress + change, goals[i].amount));
        (goals[i := g], Some(g))
  }

  /** When a goal is returned, it is an owned goal of the table with its progress moved by the clamped delta, written back in place. */
  lemma ApplyGoalDeltaSome(goals: seq<Goal>, goalId: Option<Id>, uid: Uid, change: int)
    ensures var out := ApplyGoalDelta(goals, goalId, uid, change);
      out.1.Some? ==>
      exists i :: (&& 0 <= i < |goals| && IsOwnedGoal(goals[i], goalId.value, uid)
                   && out.0 == goals[i := out.1.value]
                   && out.1.value == goals[i].(progress := ClampProgress(goals[i].progress + change, goals[i].amount)))
  {
    if goalId.Some? {
      match IndexOf(goals, (g: Goal) => IsOwnedGoal(g, goalId.value, uid))
      case None =>
      case Some(i) =>
        assert IsOwnedGoal(goals[i], goalId.value, uid);
    }
  }

  /** `updateGoalProgress(goalId, userId, amountChange)`. */
  method UpdateGoalProgress(db: Database, goalId: Option<Id>, uid: Uid, change: int) returns (r: Option<Goal>)
    requires db.Valid()
    modifies db`goals
    ensures db.Valid()
    ensures (db.goals, r) == ApplyGoalDelta(old(db.goals), goalId, uid, change)
  {
    if goalId.None? {
      return None;
    }
    var found := IndexOf(db.goals, (g: Goal) => IsOwnedGoal(g, goalId.value, uid));
    if found.None? {
      return None;
    }
    var i := found.value;
    var goal := db.goals[i];
    var newProgress := goal.progress + change;
    newProgress := Max(0, newProgress);
    newProgress := Min(newProgress, goal.amount);
    goal := goal.(progress := newProgress);
    WriteGoal(db, i, goal);
    r := Some(goal);
  }

  /** With `amount >= 0` the delta keeps progress within `[0, amount]`, whatever the change. */
  lemma GoalDeltaBounds(goals: seq<Goal>, goalId: Option<Id>, uid: Uid, change: int)
    requires forall j :: 0 <= j < |goals| ==> goals[j].amount >= 0 && 0 <= goals[j].progress <= goals[j].amount
    ensures var (t, _) := ApplyGoalDelta(goals, goalId, uid, change);
      forall j :: 0 <= j < |t| ==> 0 <= t[j].progress <= t[j].amount
  {
  }

  /** A delta and its opposite cancel out as long as neither is clamped. */
  lemma {:induction false} GoalDeltaUndo(goals: seq<Goal>, goalId: Id, uid: Uid, change: int, i: nat)
    requires i < |goals| && IndexOf(goals, (g: Goal) => IsOwnedGoal(g, goalId, uid)) == Some(i)
    requires 0 <= goals[i].progress + change <= goals[i].amount && 0 <= goals[i].progress <= goals[i].amount
    ensures var (t, _) := ApplyGoalDelta(goals, Some(goalId), uid, change);
      ApplyGoalDelta(t, Some(goalId), uid, -change).0 == goals
  {
    var g1 := goals[i].(progress := goals[i].progress + change);
    var t := goals[i := g1];
    GoalDeltaAt(goals, goalId, uid, change, i);
    IndexOfSameKeys(goals, t, goalId, uid);
    GoalDeltaAt(t, goalId, uid, -change, i);
    assert t[i := g1.(progress := goals[i].progress)] == goals;
  }

  /** The delta on an owned goal at a known position. */
  lemma {:induction false} GoalDeltaAt(goals: seq<Goal>, goalId: Id, uid: Uid, change: int, i: nat)
    requires i < |goals| && IndexOf(goals, (g: Goal) => IsOwnedGoal(g, goalId, uid)) == Some(i)
    ensures ApplyGoalDelta(goals, Some(goalId), uid, change).0
      == goals[i := goals[i].(progress := ClampProgress(goals[i].progress + change, goals[i].amount))]
  {
  }

  /**
   * The incremental path agrees with the recompute path while no clamp fires: a goal
   * consistent with linked sum `linked` stays consistent with `linked + change`.
   */
  lemma IncrementalAgreesWhenUnclamped(g: Goal, linked: int, change: int)
    requires Consistent(g, linked)
    requires 0 <= g.initialProgress + linked <= g.amount
    requires 0 <= g.initialProgress + linked + change <= g.amount
    ensures Consistent(g.(progress := ClampProgress(g.progress + change, g.amount)), linked + change)
  {
  }

  /**
   * Once a clamp has fired the two paths disagree: a goal of 100 with baseline 50
   * and an 80 linked expense shows 100; deleting the expense leaves the incremental
   * path at 20, while the recompute (`/reconcile`) gives back 50.
   */
  lemma IncrementalDriftsAfterClamp(g: Goal)
    requires g.amount == 100 && g.initialProgress == 50 && g.progress == 100
    ensures Consistent(g, 80)
    ensures ClampProgress(g.progress - 80, g.amount) == 20
    ensures Reconciled(g.(progress := 20), 0).progress == 50
  {
  }

  // ---------------------------------------------------------------------------
  // Request bodies and record writes
  // ---------------------------------------------------------------------------

  /**
   * The fields of an expense request body. `dueDate` and `goalId` are `None` when
   * missing or falsy (the handlers store `null` then); `description` is `None` when
   * missing.
   */
  datatype ExpenseRequest = ExpenseRequest(
    amount: int, payee: string, category: string, frequency: string,
    description: Option<string>, dueDate: Option<DateTime>, goalId: Option<Id>)

  /** The expense `POST /expenses` stores: active, dated now, linked to the given goal or none. */
  function NewExpense(id: Id, uid: Uid, req: ExpenseRequest, now: DateTime): (e: Expense)
    ensures e.active && e.date == now && e.goalId == req.goalId
    ensures e.id == id && e.uid == uid && e.amount == req.amount && e.category == req.category
    ensures e.dueDate == req.dueDate && e.description == req.description
    ensures e.payee == req.payee && e.frequency == req.frequency
  {
    Expense(id, uid, req.amount, req.payee, req.category, req.frequency, req.description, req.dueDate, now, true, req.goalId)
  }

  /**
   * The record `findOneAndUpdate` leaves: a field the body omits (`description`,
   * `active`) keeps its value; `dueDate` and `goalId` are always written.
   */
  function PatchExpense(e: Expense, req: ExpenseRequest, active: Option<bool>): (r: Expense)
    ensures r.id == e.id && r.uid == e.uid && r.date == e.date
    ensures r.amount == req.amount && r.category == req.category && r.goalId == req.goalId && r.dueDate == req.dueDate
    ensures r.payee == req.payee && r.frequency == req.frequency
    ensures r.active == (if active.Some? then active.value else e.active)
    ensures r.description == (if req.description.Some? then req.description else e.description)
  {
    e.(amount := req.amount, payee := req.payee, category := req.category, frequency := req.frequency,
       description := if req.description.Some? then req.description else e.description,
       dueDate := req.dueDate, active := active.GetOr(e.active), goalId := req.goalId)
  }

  method WriteExpense(db: Database, i: nat, e: Expense)
    requires db.Valid() && i < |db.expenses| && e.id == db.expenses[i].id
    modifies db`expenses
    ensures db.Valid() && db.expenses == old(db.expenses)[i := e]
  {
    assert ExpenseIds(db.expenses[i := e]) == ExpenseIds(db.expenses);
    db.expenses := db.expenses[i := e];
  }

  /** `if (goalId) await updateGoalProgress(goalId, uid, change)`. */
  method LinkedGoalProgress(db: Database, goalId: Option<Id>, uid: Uid, change: int)
    requires db.Valid()
    modifies db`goals
    ensures db.Valid()
    ensures db.goals == ApplyGoalDelta(old(db.goals), goalId, uid, change).0
  {
    if goalId.Some? {
      var _ := UpdateGoalProgress(db, goalId, uid, change);
    }
  }

  method RemoveExpense(db: Database, i: nat)
    requires db.Valid() && i < |db.expenses|
    modifies db`expenses
    ensures db.Valid() && db.expenses == old(db.expenses)[..i] + old(db.expenses)[i + 1..]
  {
    assert ExpenseIds(db.expenses[..i] + db.expenses[i + 1..])
        == ExpenseIds(db.expenses)[..i] + ExpenseIds(db.expenses)[i + 1..];
    IdsFreshRemove(ExpenseIds(db.expenses), i, db.nextId);
    db.expenses := db.expenses[..i] + db.expenses[i + 1..];
  }

  // ---------------------------------------------------------------------------
  // POST /expenses
  // ---------------------------------------------------------------------------

  /** The tables after `POST /expenses`: insert, goal delta, then recompute of the category's budget. */
  function PostExpense(t: Tables, id: Id, uid: Uid, req: ExpenseRequest, now: DateTime): (out: (Tables, Expense))
    requires ValidNow(now)
    ensures out.0.expenses == t.expenses + [out.1]
    ensures out.1 == NewExpense(id, uid, req, now)
  {
    var e := NewExpense(id, uid, req, now);
    var expenses := t.expenses + [e];
    var goals := ApplyGoalDelta(t.goals, req.goalId, uid, req.amount).0;
    var budgets := RecomputeSpent(t.budgets, expenses, uid, req.category, CurrentMonthRange(now)).0;
    (Tables(expenses, budgets, goals), e)
  }

  method AddExpense(db: Database, uid: Uid, req: ExpenseRequest, now: DateTime) returns (e: Expense)
    requires db.Valid() && ValidNow(now)
    modifies db
    ensures db.Valid()
    ensures (db.Snapshot(), e) == PostExpense(old(db.Snapshot()), old(db.nextId), uid, req, now)
    ensures db.users == old(db.users)
  {
    var id := db.NewId();
    e := NewExpense(id, uid, req, now);
    assert ExpenseIds(db.expenses + [e]) == ExpenseIds(db.expenses) + [id];
    IdsFreshSnoc(ExpenseIds(db.expenses), id, db.nextId);
    db.expenses := db.expenses + [e];
    LinkedGoalProgress(db, req.goalId, uid, req.amount);
    var _ := UpdateBudgetSpent(db, uid, req.category, now);
  }

  /**
   * After `POST /expenses` the category's current-month budget, when there is one,
   * holds the previous sum plus the new amount, unless the clock stands at the
   * window's last millisecond (from year 100 on).
   */
  lemma {:induction false} PostExpenseCountsNewAmount(t: Tables, id: Id, uid: Uid, req: ExpenseRequest, now: DateTime)
    requires ValidNow(now) && 100 <= now.year
    requires MonthBudgetIndex(t.budgets, uid, req.category, CurrentMonthRange(now)).Some?
    ensures var r := CurrentMonthRange(now);
      var i := MonthBudgetIndex(t.budgets, uid, req.category, r).value;
      PostExpense(t, id, uid, req, now).0.budgets[i].spent
        == SpentInRange(t.expenses, uid, req.category, r) + (if now == r.endDate then 0 else req.amount)
  {
    var r := CurrentMonthRange(now);
    var e := NewExpense(id, uid, req, now);
    CurrentMonthRangeMembership(now, now);
    SpentInRangeSnoc(t.expenses, e, uid, req.category, r);
  }

  /** A linked `POST` moves the goal by the new amount; an unlinked one leaves every goal alone. */
  lemma PostExpenseGoal(t: Tables, id: Id, uid: Uid, req: ExpenseRequest, now: DateTime)
    requires ValidNow(now)
    ensures req.goalId.None? ==> PostExpense(t, id, uid, req, now).0.goals == t.goals
    ensures PostExpense(t, id, uid, req, now).0.goals == ApplyGoalDelta(t.goals, req.goalId, uid, req.amount).0
  {
  }

  // ---------------------------------------------------------------------------
  // PUT /expenses/:id
  // ---------------------------------------------------------------------------

  /** The expense row `findById` returns. */
  function ExpenseIndex(expenses: seq<Expense>, id: Id): Option<nat> {
    IndexOf(expenses, (e: Expense) => e.id == id)
  }

  /**
   * The tables after `PUT /expenses/:id`: not-found (no change) for a missing or
   * foreign expense; otherwise the old amount leaves the old goal, the record is
   * patched, the new amount joins the new goal and the NEW category's budget is
   * recomputed.
   */
  function PutExpense(t: Tables, uid: Uid, id: Id, req: ExpenseRequest, active: Option<bool>, now: DateTime)
    : (out: (Tables, Result<Expense>))
    requires ValidNow(now)
    ensures out.1.Err? <==> ExpenseIndex(t.expenses, id).None? || t.expenses[ExpenseIndex(t.expenses, id).value].uid != uid
    ensures out.1.Err? ==> out == (t, Err(NotFound("Expense not found")))
  {
    match ExpenseIndex(t.expenses, id)
    case None => (t, Err(NotFound("Expense not found")))
    case Some(i) =>
      if t.expenses[i].uid != uid then (t, Err(NotFound("Expense not found")))
      else (PutOwnedExpense(t, uid, i, req, active, now), Ok(PatchExpense(t.expenses[i], req, active)))
  }

  /** The tables after the owner's `PUT` of the expense in row `i`. */
  function PutOwnedExpense(t: Tables, uid: Uid, i: nat, req: ExpenseRequest, active: Option<bool>, now: DateTime): Tables
    requires ValidNow(now) && i < |t.expenses|
  {
    var original := t.expenses[i];
    var goals := ApplyGoalDelta(t.goals, original.goalId, uid, -original.amount).0;
    var expenses := t.expenses[i := PatchExpense(original, req, active)];
    var goals' := ApplyGoalDelta(goals, req.goalId, uid, req.amount).0;
    var budgets := RecomputeSpent(t.budgets, expenses, uid, req.category, CurrentMonthRange(now)).0;
    Tables(expenses, budgets, goals')
  }

  method UpdateExpense(db: Database, uid: Uid, id: Id, req: ExpenseRequest, active: Option<bool>, now: DateTime)
    returns (r: Result<Expense>)
    requires db.Valid() && ValidNow(now)
    modifies db`expenses, db`goals, db`budgets
    ensures db.Valid()
    ensures (db.Snapshot(), r) == PutExpense(old(db.Snapshot()), uid, id, req, active, now)
  {
    var found := IndexOf(db.expenses, (e: Expense) => e.id == id);
    if found.None? || db.expenses[found.value].uid != uid {
      return Err(NotFound("Expense not found"));
    }
    var updatedExpense := UpdateOwnedExpense(db, uid, found.value, req, active, now);
    r := Ok(updatedExpense);
  }

  /** The owner's `PUT`: the old amount leaves the old goal, the record is saved, the new amount joins the new goal. */
  method UpdateOwnedExpense(db: Database, uid: Uid, i: nat, req: ExpenseRequest, active: Option<bool>, now: DateTime)
    returns (updatedExpense: Expense)
    requires db.Valid() && ValidNow(now) && i < |db.expenses|
    modifies db`expenses, db`goals, db`budgets
    ensures db.Valid()
    ensures db.Snapshot() == PutOwnedExpense(old(db.Snapshot()), uid, i, req, active, now)
    ensures updatedExpense == PatchExpense(old(db.expenses)[i], req, active)
  {
    var originalExpense := db.expenses[i];
    LinkedGoalProgress(db, originalExpense.goalId, uid, -originalExpense.amount);
    updatedExpense := PatchExpense(originalExpense, req, active);
    WriteExpense(db, i, updatedExpense);
    LinkedGoalProgress(db, req.goalId, uid, req.amount);
    var _ := UpdateBudgetSpent(db, uid, req.category, now);
  }

  /**
   * A successful `PUT` leaves every other expense as it was and gives the edited
   * one the request's amount, category and goal.
   */
  lemma PutExpenseRecord(t: Tables, uid: Uid, id: Id, req: ExpenseRequest, active: Option<bool>, now: DateTime, i: nat)
    requires ValidNow(now)
    requires ExpenseIndex(t.expenses, id) == Some(i) && t.expenses[i].uid == uid
    ensures var (t', r) := PutExpense(t, uid, id, req, active, now);
      && r == Ok(t'.expenses[i])
      && |t'.expenses| == |t.expenses|
      && (forall j :: 0 <= j < |t.expenses| && j != i ==> t'.expenses[j] == t.expenses[j])
      && t'.expenses[i].amount == req.amount && t'.expenses[i].category == req.category
      && t'.expenses[i].goalId == req.goalId && t'.expenses[i].id == id
  {
  }

  /** Budget consistency: the category's current-month budget, if any, caches the true sum. */
  predicate SpentUpToDate(budgets: seq<Budget>, expenses: seq<Expense>, uid: Uid, category: string, r: DateRange) {
    match MonthBudgetIndex(budgets, uid, category, r)
    case None => true
    case Some(i) => i < |budgets| && budgets[i].spent == SpentInRange(expenses, uid, category, r)
  }

  lemma RecomputeMakesUpToDate(budgets: seq<Budget>, expenses: seq<Expense>, uid: Uid, category: string, r: DateRange)
    ensures SpentUpToDate(RecomputeSpent(budgets, expenses, uid, category, r).0, expenses, uid, category, r)
  {
    var t := RecomputeSpent(budgets, expenses, uid, category, r).0;
    IndexOfCongruent(budgets, t, uid, category, r);
  }

  /** After a successful `PUT` the new category's budget is up to date. */
  lemma PutExpenseNewCategoryUpToDate(t: Tables, uid: Uid, id: Id, req: ExpenseRequest, active: Option<bool>, now: DateTime)
    requires ValidNow(now)
    ensures var (t', r) := PutExpense(t, uid, id, req, active, now);
      r.Ok? ==> SpentUpToDate(t'.budgets, t'.expenses, uid, req.category, CurrentMonthRange(now))
  {
    var (t', r) := PutExpense(t, uid, id, req, active, now);
    if r.Ok? {
      RecomputeMakesUpToDate(t.budgets, t'.expenses, uid, req.category, CurrentMonthRange(now));
    }
  }

  /**
   * Only the new category is recomputed: every budget of another category, including
   * the category the expense is moved away from, keeps its stored `spent`.
   */
  lemma PutExpenseKeepsOtherCategories(t: Tables, uid: Uid, id: Id, req: ExpenseRequest, active: Option<bool>,
                                       now: DateTime, category: string)
    requires ValidNow(now) && category != req.category
    ensures var (t', r) := PutExpense(t, uid, id, req, active, now);
      |t'.budgets| == |t.budgets|
      && forall j :: 0 <= j < |t.budgets| && t.budgets[j].category == category ==> t'.budgets[j] == t.budgets[j]
  {
  }

  // ---------------------------------------------------------------------------
  // DELETE /expenses/:id
  // ---------------------------------------------------------------------------

  predicate IsOwnedExpense(e: Expense, id: Id, uid: Uid) {
    e.id == id && e.uid == uid
  }

  /**
   * The tables after `DELETE /expenses/:id`: not-found (no change) unless the caller
   * owns the expense; otherwise it is removed, its amount leaves its goal and its
   * category's budget is recomputed.
   */
  function DelExpense(t: Tables, uid: Uid, id: Id, now: DateTime): (out: (Tables, Result<string>))
    requires ValidNow(now)
    ensures out.1.Err? <==> forall j :: 0 <= j < |t.expenses| ==> !IsOwnedExpense(t.expenses[j], id, uid)
    ensures out.1.Err? ==> out == (t, Err(NotFound("Expense not found")))
    ensures out.1.Ok? ==> |out.0.expenses| == |t.expenses| - 1
  {
    match IndexOf(t.expenses, (e: Expense) => IsOwnedExpense(e, id, uid))
    case None => (t, Err(NotFound("Expense not found")))
    case Some(i) => (DelOwnedExpense(t, uid, i, now), Ok("Expense deleted successfully"))
  }

  /** The tables after the caller's expense at `i` is deleted. */
  function DelOwnedExpense(t: Tables, uid: Uid, i: nat, now: DateTime): Tables
    requires ValidNow(now) && i < |t.expenses|
  {
    var deleted := t.expenses[i];
    var expenses := t.expenses[..i] + t.expenses[i + 1..];
    var goals := ApplyGoalDelta(t.goals, deleted.goalId, uid, -deleted.amount).0;
    var budgets := RecomputeSpent(t.budgets, expenses, uid, deleted.category, CurrentMonthRange(now)).0;
    Tables(expenses, budgets, goals)
  }

  method DeleteExpense(db: Database, uid: Uid, id: Id, now: DateTime) returns (r: Result<string>)
    requires db.Valid() && ValidNow(now)
    modifies db`expenses, db`goals, db`budgets
    ensures db.Valid()
    ensures (db.Snapshot(), r) == DelExpense(old(db.Snapshot()), uid, id, now)
  {
    var found := IndexOf(db.expenses, (e: Expense) => IsOwnedExpense(e, id, uid));
    if found.None? {
      return Err(NotFound("Expense not found"));
    }
    DeleteOwnedExpense(db, uid, found.value, now);
    r := Ok("Expense deleted successfully");
  }

  /** `DelOwnedExpense` from its three parts. */
  lemma DelOwnedExpenseParts(t: Tables, uid: Uid, i: nat, now: DateTime, expenses: seq<Expense>, budgets: seq<Budget>, goals: seq<Goal>)
    requires ValidNow(now) && i < |t.expenses|
    requires expenses == t.expenses[..i] + t.expenses[i + 1..]
    requires goals == ApplyGoalDelta(t.goals, t.expenses[i].goalId, uid, -t.expenses[i].amount).0
    requires budgets == RecomputeSpent(t.budgets, expenses, uid, t.expenses[i].category, CurrentMonthRange(now)).0
    ensures DelOwnedExpense(t, uid, i, now) == Tables(expenses, budgets, goals)
  {
  }

  method DeleteOwnedExpense(db: Database, uid: Uid, i: nat, now: DateTime)
    requires db.Valid() && ValidNow(now) && i < |db.expenses|
    modifies db`expenses, db`goals, db`budgets
    ensures db.Valid()
    ensures db.Snapshot() == DelOwnedExpense(old(db.Snapshot()), uid, i, now)
  {
    ghost var t := db.Snapshot();
    var deletedExpense := db.expenses[i];
    RemoveExpense(db, i);
    LinkedGoalProgress(db, deletedExpense.goalId, uid, -deletedExpense.amount);
    var _ := UpdateBudgetSpent(db, uid, deletedExpense.category, now);
    DelOwnedExpenseParts(t, uid, i, now, db.expenses, db.budgets, db.goals);
  }

  /**
   * `DELETE` removes exactly the caller's expense with that id (ids are unique), and
   * its category's budget is then up to date.
   */
  lemma DelExpenseEffect(t: Tables, next: nat, uid: Uid, id: Id, now: DateTime, i: nat)
    requires ValidNow(now) && IdsFresh(ExpenseIds(t.expenses), next)
    requires i < |t.expenses| && IsOwnedExpense(t.expenses[i], id, uid)
    ensures var (t', r) := DelExpense(t, uid, id, now);
      && r == Ok("Expense deleted successfully")
      && t'.expenses == t.expenses[..i] + t.expenses[i + 1..]
      && t'.goals == ApplyGoalDelta(t.goals, t.expenses[i].goalId, uid, -t.expenses[i].amount).0
      && SpentUpToDate(t'.budgets, t'.expenses, uid, t.expenses[i].category, CurrentMonthRange(now))
  {
    FirstWithId(t.expenses, ExpenseIds(t.expenses), next, i, (e: Expense) => IsOwnedExpense(e, id, uid));
    DelExpenseAt(t, uid, id, now, i);
    var expenses := t.expenses[..i] + t.expenses[i + 1..];
    RecomputeMakesUpToDate(t.budgets, expenses, uid, t.expenses[i].category, CurrentMonthRange(now));
  }

  /** The delete of the caller's expense found at `i`. */
  lemma DelExpenseAt(t: Tables, uid: Uid, id: Id, now: DateTime, i: nat)
    requires ValidNow(now) && i < |t.expenses|
    requires IndexOf(t.expenses, (e: Expense) => IsOwnedExpense(e, id, uid)) == Some(i)
    ensures DelExpense(t, uid, id, now) == (DelOwnedExpense(t, uid, i, now), Ok("Expense deleted successfully"))
  {
  }

  // ---------------------------------------------------------------------------
  // GET /expenses
  // ---------------------------------------------------------------------------

  /** The listing query: the user's expenses in the month's window, optionally of one goal. */
  predicate MatchesListing(e: Expense, uid: Uid, r: DateRange, goalId: Option<Id>) {
    e.uid == uid && InRange(e.date, r) && (goalId.Some? ==> e.goalId == goalId)
  }

  /** Newest first: no expense is older than one listed after it. */
  predicate NewestFirst(s: seq<Expense>) {
    forall i, j :: 0 <= i < j < |s| ==> NotAfter(s[j].date, s[i].date)
  }

  /** Every expense of `s` is dated no later than `d`. */
  predicate NoneAfter(s: seq<Expense>, d: DateTime) {
    forall k :: 0 <= k < |s| ==> NotAfter(s[k].date, d)
  }

  /** Insertion of one expense into a newest-first list. */
  function InsertByDate(x: Expense, s: seq<Expense>): (r: seq<Expense>)
    ensures multiset(r) == multiset(s) + multiset{x}
    ensures |r| == |s| + 1
  {
    if s == [] then [x]
    else if Before(x.date, s[0].date) then
      assert s == [s[0]] + s[1..];
      [s[0]] + InsertByDate(x, s[1..])
    else
      [x] + s
  }

  lemma {:induction false} InsertNoneAfter(x: Expense, s: seq<Expense>, d: DateTime)
    requires NoneAfter(s, d) && NotAfter(x.date, d)
    ensures NoneAfter(InsertByDate(x, s), d)
    decreases |s|
  {
    if s != [] && Before(x.date, s[0].date) {
      InsertNoneAfter(x, s[1..], d);
    }
  }

  lemma NewestFirstCons(s: seq<Expense>)
    requires s != []
    ensures NewestFirst(s) <==> NoneAfter(s[1..], s[0].date) && NewestFirst(s[1..])
  {
    if NoneAfter(s[1..], s[0].date) && NewestFirst(s[1..]) {
      forall i, j | 0 <= i < j < |s| ensures NotAfter(s[j].date, s[i].date) {
        if i > 0 {
          assert s[1..][i - 1] == s[i] && s[1..][j - 1] == s[j];
        } else {
          assert s[1..][j - 1] == s[j];
        }
      }
    }
    if NewestFirst(s) {
      forall k | 0 <= k < |s[1..]| ensures NotAfter(s[1..][k].date, s[0].date) {
        assert s[1..][k] == s[k + 1];
      }
    }
  }

  lemma NoneAfterWeaken(s: seq<Expense>, d: DateTime, d': DateTime)
    requires NoneAfter(s, d) && NotAfter(d, d')
    ensures NoneAfter(s, d')
  {
    forall k | 0 <= k < |s| ensures NotAfter(s[k].date, d') {
      NotAfterTransitive(s[k].date, d, d');
    }
  }

  /** Insertion keeps a list newest first. */
  lemma {:induction false} InsertNewestFirst(x: Expense, s: seq<Expense>)
    requires NewestFirst(s)
    ensures NewestFirst(InsertByDate(x, s))
    decreases |s|
  {
    var r := InsertByDate(x, s);
    if s == [] {
    } else if Before(x.date, s[0].date) {
      NewestFirstCons(s);
      InsertNewestFirst(x, s[1..]);
      InsertNoneAfter(x, s[1..], s[0].date);
      assert r[1..] == InsertByDate(x, s[1..]);
      NewestFirstCons(r);
    } else {
      NewestFirstCons(s);
      if |s| > 1 {
        NoneAfterWeaken(s[1..], s[0].date, x.date);
      }
      assert r[1..] == s;
      NewestFirstCons(r);
    }
  }

  /** `.sort({ date: -1 })`. */
  function SortNewestFirst(s: seq<Expense>): (r: seq<Expense>)
    ensures multiset(r) == multiset(s)
  {
    if s == [] then []
    else
      assert s == [s[0]] + s[1..];
      InsertByDate(s[0], SortNewestFirst(s[1..]))
  }

  lemma {:induction false} SortIsNewestFirst(s: seq<Expense>)
    ensures NewestFirst(SortNewestFirst(s))
    decreases |s|
  {
    if s != [] {
      SortIsNewestFirst(s[1..]);
      InsertNewestFirst(s[0], SortNewestFirst(s[1..]));
    }
  }

  /** `GET /expenses?month=&goalId=`. */
  function ListExpenses(expenses: seq<Expense>, uid: Uid, month: Option<string>, goalId: Option<Id>, now: DateTime)
    : (r: seq<Expense>)
    requires ValidNow(now)
  {
    var range := GetDateRangeFromMonth(month, now);
    SortNewestFirst(Filter(expenses, (e: Expense) => MatchesListing(e, uid, range, goalId)))
  }

  /**
   * The listing holds exactly the matching stored expenses, each as often as it is
   * stored, newest first.
   */
  lemma ListExpensesMeaning(expenses: seq<Expense>, uid: Uid, month: Option<string>, goalId: Option<Id>, now: DateTime)
    requires ValidNow(now)
    ensures var range := GetDateRangeFromMonth(month, now);
      var r := ListExpenses(expenses, uid, month, goalId, now);
      && NewestFirst(r)
      && (forall e :: e in r ==> MatchesListing(e, uid, range, goalId) && e in expenses)
      && (forall e :: e in expenses && MatchesListing(e, uid, range, goalId) ==> e in r)
      && (forall e :: multiset(r)[e] == if MatchesListing(e, uid, range, goalId) then multiset(expenses)[e] else 0)
  {
    var range := GetDateRangeFromMonth(month, now);
    var p := (e: Expense) => MatchesListing(e, uid, range, goalId);
    var f := Filter(expenses, p);
    var r := ListExpenses(expenses, uid, month, goalId, now);
    SortIsNewestFirst(f);
    assert multiset(r) == multiset(f);
    forall e
      ensures multiset(r)[e] == if MatchesListing(e, uid, range, goalId) then multiset(expenses)[e] else 0
      ensures e in r <==> MatchesListing(e, uid, range, goalId) && e in expenses
    {
      FilterMultiplicity(expenses, p, e);
      assert e in r <==> e in multiset(r);
      assert e in expenses <==> e in multiset(expenses);
    }
  }
}
