/**
 * backend/routes/budgetRoutes.js: add-or-update of the current month's budget of
 * a category, the listing with its start-of-month rollover pass, and the
 * owner-scoped update and delete.
 */
module BudgetRoutes {
  import opened Wrappers
  import opened Dates
  import opened Seqs
  import opened Records
  import opened BudgetSpent

  /** The fields of a budget request body; `rollover` is kept as the raw JSON value. */
  datatype BudgetRequest = BudgetRequest(category: string, budget: int, date: Option<DateTime>, rollover: JsonValue)

  /** What `POST /budgets` did: overwrote the month's budget (200) or added one (201). */
  datatype Saved = Updated(entry: Budget) | Added(entry: Budget)

  // ---------------------------------------------------------------------------
  // POST /budgets
  // ---------------------------------------------------------------------------

  /**
   * The budget table after `POST /budgets`. The category's current-month budget,
   * if any, gets the new amount, the strict rollover flag and the recomputed
   * spent; otherwise a budget is appended with that spent and no carried amount.
   */
  function PostBudget(budgets: seq<Budget>, expenses: seq<Expense>, id: Id, uid: Uid, req: BudgetRequest, now: DateTime)
    : (out: (seq<Budget>, Saved))
    requires ValidNow(now)
    ensures out.1.entry.rollover == IsStrictTrue(req.rollover)
    ensures out.1.entry.spent == SpentInRange(expenses, uid, req.category, CurrentMonthRange(now))
    ensures out.1.entry.budget == req.budget && out.1.entry.uid == uid && out.1.entry.category == req.category
    ensures out.1.Added? <==> MonthBudgetIndex(budgets, uid, req.category, CurrentMonthRange(now)).None?
    ensures out.1.Added? ==> out.0 == budgets + [out.1.entry] && out.1.entry.rolloverAmount == 0 && out.1.entry.id == id
    ensures out.1.Added? ==> out.1.entry.date == req.date.GetOr(now)
    ensures out.1.Updated? ==> exists i ::
      && MonthBudgetIndex(budgets, uid, req.category, CurrentMonthRange(now)) == Some(i)
      && i < |budgets| && out.0 == budgets[i := out.1.entry]
      && out.1.entry.id == budgets[i].id && out.1.entry.date == budgets[i].date
      && out.1.entry.rolloverAmount == budgets[i].rolloverAmount
  {
    var range := CurrentMonthRange(now);
    var totalSpent := SpentInRange(expenses, uid, req.category, range);
    match MonthBudgetIndex(budgets, uid, req.category, range)
    case Some(i) =>
      var b := budgets[i].(budget := req.budget, rollover := IsStrictTrue(req.rollover), spent := totalSpent);
      (budgets[i := b], Updated(b))
    case None =>
      var b := Budget(id, uid, req.category, req.budget, totalSpent, IsStrictTrue(req.rollover), 0, req.date.GetOr(now));
      (budgets + [b], Added(b))
  }

  method AddOrUpdateBudget(db: Database, uid: Uid, req: BudgetRequest, now: DateTime) returns (r: Saved)
    requires db.Valid() && ValidNow(now)
    modifies db`budgets, db`nextId
    ensures db.Valid()
    ensures (db.budgets, r) == PostBudget(old(db.budgets), db.expenses, old(db.nextId), uid, req, now)
  {
    var currentMonth := CurrentMonthToken(now);
    var dateRange := GetDateRangeFromMonth(Some(currentMonth), now);
    CurrentMonthRangeIsResolved(now);
    var found := IndexOf(db.budgets, (b: Budget) => IsMonthBudget(b, uid, req.category, dateRange));
    var totalSpent := FilteredTotal(db.expenses, (e: Expense) => CountsTowardSpent(e, uid, req.category, dateRange));
    if found.Some? {
      var i := found.value;
      var existing := db.budgets[i];
      existing := existing.(budget := req.budget);
      existing := existing.(rollover := IsStrictTrue(req.rollover));
      existing := existing.(spent := totalSpent);
      assert BudgetIds(db.budgets[i := existing]) == BudgetIds(db.budgets);
      db.budgets := db.budgets[i := existing];
      r := Updated(existing);
    } else {
      var id := db.NewId();
      var newBudget := Budget(id, uid, req.category, req.budget, totalSpent, IsStrictTrue(req.rollover), 0, req.date.GetOr(now));
      assert BudgetIds(db.budgets + [newBudget]) == BudgetIds(db.budgets) + [id];
      IdsFreshSnoc(BudgetIds(db.budgets), id, db.nextId);
      db.budgets := db.budgets + [newBudget];
      r := Added(newBudget);
    }
  }

  /**
   * Updating an existing month budget is the spent recompute of
   * backend/utils/updateBudgetSpent.js applied after writing the amount and flag,
   * so the budget is left up to date.
   */
  lemma {:induction false} PostBudgetIsRecompute(budgets: seq<Budget>, expenses: seq<Expense>, id: Id, uid: Uid,
                                                 req: BudgetRequest, now: DateTime, i: nat)
    requires ValidNow(now)
    requires MonthBudgetIndex(budgets, uid, req.category, CurrentMonthRange(now)) == Some(i)
    ensures var written := budgets[i := budgets[i].(budget := req.budget, rollover := IsStrictTrue(req.rollover))];
      PostBudget(budgets, expenses, id, uid, req, now).0
        == RecomputeSpent(written, expenses, uid, req.category, CurrentMonthRange(now)).0
  {
    var r := CurrentMonthRange(now);
    var written := budgets[i := budgets[i].(budget := req.budget, rollover := IsStrictTrue(req.rollover))];
    MonthBudgetIndexKeys(budgets, written, uid, req.category, r);
    assert written[i := written[i].(spent := SpentInRange(expenses, uid, req.category, r))]
        == budgets[i := budgets[i].(budget := req.budget, rollover := IsStrictTrue(req.rollover),
                                    spent := SpentInRange(expenses, uid, req.category, r))];
  }

  /**
   * An added budget dated inside the current month becomes the month's budget of
   * its category, with spent equal to the recomputed sum.
   */
  lemma {:induction false} PostBudgetAddedIsMonthBudget(budgets: seq<Budget>, expenses: seq<Expense>, id: Id, uid: Uid,
                                                        req: BudgetRequest, now: DateTime)
    requires ValidNow(now)
    requires MonthBudgetIndex(budgets, uid, req.category, CurrentMonthRange(now)).None?
    requires InRange(req.date.GetOr(now), CurrentMonthRange(now))
    ensures var (t, s) := PostBudget(budgets, expenses, id, uid, req, now);
      && MonthBudgetIndex(t, uid, req.category, CurrentMonthRange(now)) == Some(|budgets|)
      && t[|budgets|].spent == SpentInRange(expenses, uid, req.category, CurrentMonthRange(now))
  {
    var r := CurrentMonthRange(now);
    var (t, s) := PostBudget(budgets, expenses, id, uid, req, now);
    assert t == budgets + [s.entry];
    IndexOfSnocNone(budgets, s.entry, (b: Budget) => IsMonthBudget(b, uid, req.category, r));
  }

  lemma {:induction false} IndexOfSnocNone(s: seq<Budget>, x: Budget, p: Budget -> bool)
    requires IndexOf(s, p).None? && p(x)
    ensures IndexOf(s + [x], p) == Some(|s|)
    decreases |s|
  {
    if s != [] {
      assert (s + [x])[1..] == s[1..] + [x];
      IndexOfSnocNone(s[1..], x, p);
    }
  }

  // ---------------------------------------------------------------------------
  // GET /budgets: listing and start-of-month rollover
  // ---------------------------------------------------------------------------

  /** The listing query `{firebaseUid, date: {$gte, $lt}}`. */
  predicate Listed(b: Budget, uid: Uid, r: DateRange) {
    b.uid == uid && InRange(b.date, r)
  }

  /** The rollover pass runs on the first five days of the month. */
  predicate IsStartOfMonth(now: DateTime) {
    now.day <= 5
  }

  /** The window of the month before the clock's (`setMonth(getMonth() - 1)`, then its token). */
  function PreviousMonthRange(now: DateTime): DateRange
    requires ValidNow(now) && IsStartOfMonth(now)
  {
    var prevMonth := PrevMonthDate(now);
    GetDateRangeFromMonth(Some(MonthTokenOf(prevMonth.year, prevMonth.month)), now)
  }

  /** The query for the previous month's budgets with rollover enabled. */
  predicate IsRolloverSource(b: Budget, uid: Uid, prev: DateRange) {
    b.uid == uid && b.rollover && InRange(b.date, prev)
  }

  /** `Math.max(0, prevBudget.budget - prevBudget.spent)`. */
  function Unspent(prev: Budget): (u: int)
    ensures u >= 0 && u >= prev.budget - prev.spent
    ensures u == 0 || u == prev.budget - prev.spent
  {
    Max(0, prev.budget - prev.spent)
  }

  /**
   * One iteration of the rollover loop: the first listed budget of the same category
   * gets the previous budget's unspent amount when that is positive; otherwise
   * nothing changes.
   */
  function CarryInto(budgets: seq<Budget>, prev: Budget, uid: Uid, range: DateRange): (r: seq<Budget>)
    ensures |r| == |budgets|
  {
    match MonthBudgetIndex(budgets, uid, prev.category, range)
    case None => budgets
    case Some(j) =>
      var unspentAmount := Unspent(prev);
      if unspentAmount > 0 then budgets[j := budgets[j].(rolloverAmount := unspentAmount)] else budgets
  }

  /** The whole loop over the previous month's rollover budgets, in order. */
  function Rollover(budgets: seq<Budget>, prevs: seq<Budget>, uid: Uid, range: DateRange): (r: seq<Budget>)
    ensures |r| == |budgets|
  {
    if prevs == [] then budgets
    else CarryInto(Rollover(budgets, prevs[..|prevs| - 1], uid, range), prevs[|prevs| - 1], uid, range)
  }

  /** The budget table after `GET /budgets`. */
  function RolloverPass(budgets: seq<Budget>, uid: Uid, range: DateRange, now: DateTime): (r: seq<Budget>)
    requires ValidNow(now)
    ensures |r| == |budgets|
  {
    if IsStartOfMonth(now) then
      Rollover(budgets, Filter(budgets, (b: Budget) => IsRolloverSource(b, uid, PreviousMonthRange(now))), uid, range)
    else budgets
  }

  /** `GET /budgets?month=`: the rollover pass, then the listing of the (refreshed) table. */
  method GetBudgets(db: Database, uid: Uid, month: Option<string>, now: DateTime) returns (listing: seq<Budget>)
    requires db.Valid() && ValidNow(now)
    modifies db`budgets
    ensures db.Valid()
    ensures var range := GetDateRangeFromMonth(month, now);
      && db.budgets == RolloverPass(old(db.budgets), uid, range, now)
      && listing == Filter(db.budgets, (b: Budget) => Listed(b, uid, range))
  {
    var dateRange := GetDateRangeFromMonth(month, now);
    var budgets := Filter(db.budgets, (b: Budget) => Listed(b, uid, dateRange));
    if IsStartOfMonth(now) {
      var prevDateRange := PreviousMonthRange(now);
      var prevBudgets := Filter(db.budgets, (b: Budget) => IsRolloverSource(b, uid, prevDateRange));
      ghost var t0 := db.budgets;
      var k := 0;
      while k < |prevBudgets|
        invariant 0 <= k <= |prevBudgets|
        invariant db.Valid()
        invariant db.budgets == Rollover(t0, prevBudgets[..k], uid, dateRange)
      {
        RolloverStep(t0, prevBudgets, uid, dateRange, k);
        CarryIn(db, prevBudgets[k], uid, dateRange);
        k := k + 1;
      }
      assert prevBudgets[..k] == prevBudgets;
      listing := Filter(db.budgets, (b: Budget) => Listed(b, uid, dateRange));
    } else {
      listing := budgets;
    }
  }

  /** One iteration of the rollover loop, on the stored table. */
  method CarryIn(db: Database, prevBudget: Budget, uid: Uid, dateRange: DateRange)
    requires db.Valid()
    modifies db`budgets
    ensures db.Valid()
    ensures db.budgets == CarryInto(old(db.budgets), prevBudget, uid, dateRange)
  {
    var currentBudget := IndexOf(db.budgets, (b: Budget) => IsMonthBudget(b, uid, prevBudget.category, dateRange));
    if currentBudget.Some? {
      var j := currentBudget.value;
      var unspentAmount := Max(0, prevBudget.budget - prevBudget.spent);
      if unspentAmount > 0 {
        var saved := db.budgets[j].(rolloverAmount := unspentAmount);
        assert BudgetIds(db.budgets[j := saved]) == BudgetIds(db.budgets);
        db.budgets := db.budgets[j := saved];
      }
    }
  }

  /** The loop over one more previous budget is one more `CarryInto`. */
  lemma RolloverStep(budgets: seq<Budget>, prevs: seq<Budget>, uid: Uid, range: DateRange, k: nat)
    requires k < |prevs|
    ensures Rollover(budgets, prevs[..k + 1], uid, range) == CarryInto(Rollover(budgets, prevs[..k], uid, range), prevs[k], uid, range)
  {
    assert prevs[..k + 1][..k] == prevs[..k];
  }

  /** `budgets.find((b) => b.category === category && ...)` over the listed budgets. */
  function FindListed(budgets: seq<Budget>, uid: Uid, category: string, range: DateRange): Option<Budget> {
    var listed := Filter(budgets, (b: Budget) => Listed(b, uid, range));
    match IndexOf(listed, (b: Budget) => b.category == category)
    case None => None
    case Some(k) => Some(listed[k])
  }

  /** The row the rollover writes, by the whole-table lookup. */
  function MonthBudget(budgets: seq<Budget>, uid: Uid, category: string, range: DateRange): Option<Budget> {
    match MonthBudgetIndex(budgets, uid, category, range)
    case None => None
    case Some(i) => Some(budgets[i])
  }

  /**
   * The find over the listed budgets picks the same record as the first row of the
   * whole table that is listed and of the category.
   */
  lemma {:induction false} FindInListing(budgets: seq<Budget>, uid: Uid, category: string, range: DateRange)
    ensures FindListed(budgets, uid, category, range) == MonthBudget(budgets, uid, category, range)
    decreases |budgets|
  {
    if budgets != [] {
      var last := budgets[|budgets| - 1];
      var init := budgets[..|budgets| - 1];
      FindInListing(init, uid, category, range);
      assert budgets == init + [last];
      FindListedSnoc(init, last, uid, category, range);
      MonthBudgetSnoc(init, last, uid, category, range);
    }
  }

  lemma FindListedSnoc(s: seq<Budget>, x: Budget, uid: Uid, category: string, range: DateRange)
    ensures FindListed(s + [x], uid, category, range)
      == if FindListed(s, uid, category, range).Some? then FindListed(s, uid, category, range)
         else if Listed(x, uid, range) && x.category == category then Some(x) else None
  {
    var p := (b: Budget) => Listed(b, uid, range);
    var q := (b: Budget) => b.category == category;
    FilterSnoc(s, x, p);
    var f := Filter(s, p);
    if p(x) {
      IndexOfSnoc(f, x, q);
      assert Filter(s + [x], p) == f + [x];
    } else {
      assert Filter(s + [x], p) == f;
    }
  }

  lemma MonthBudgetSnoc(s: seq<Budget>, x: Budget, uid: Uid, category: string, range: DateRange)
    ensures MonthBudget(s + [x], uid, category, range)
      == if MonthBudget(s, uid, category, range).Some? then MonthBudget(s, uid, category, range)
         else if IsMonthBudget(x, uid, category, range) then Some(x) else None
  {
    IndexOfSnoc(s, x, (b: Budget) => IsMonthBudget(b, uid, category, range));
  }

  lemma {:induction false} IndexOfSnoc(s: seq<Budget>, x: Budget, p: Budget -> bool)
    ensures IndexOf(s + [x], p) == match IndexOf(s, p) case Some(i) => Some(i) case None => if p(x) then Some(|s|) else None
    decreases |s|
  {
    if s != [] {
      assert (s + [x])[1..] == s[1..] + [x];
      IndexOfSnoc(s[1..], x, p);
    }
  }

  // ---------------------------------------------------------------------------
  // Properties of the rollover pass
  // ---------------------------------------------------------------------------

  /** Outside the first five days the pass changes nothing. */
  lemma NoRolloverAfterDayFive(budgets: seq<Budget>, uid: Uid, range: DateRange, now: DateTime)
    requires ValidNow(now) && now.day > 5
    ensures RolloverPass(budgets, uid, range, now) == budgets
  {
  }

  /** No target of the category in the window, or nothing unspent: the iteration changes nothing. */
  lemma CarryNoOp(budgets: seq<Budget>, prev: Budget, uid: Uid, range: DateRange)
    requires MonthBudgetIndex(budgets, uid, prev.category, range).None? || prev.budget <= prev.spent
    ensures CarryInto(budgets, prev, uid, range) == budgets
  {
  }

  /** Owner, category and date agree row by row. */
  predicate SameKeys(a: seq<Budget>, b: seq<Budget>) {
    |a| == |b| && forall j :: 0 <= j < |a| ==> a[j].(rolloverAmount := 0) == b[j].(rolloverAmount := 0)
  }

  lemma SameKeysIndex(a: seq<Budget>, b: seq<Budget>, uid: Uid, category: string, r: DateRange)
    requires SameKeys(a, b)
    ensures MonthBudgetIndex(a, uid, category, r) == MonthBudgetIndex(b, uid, category, r)
  {
    forall j | 0 <= j < |a| ensures a[j].uid == b[j].uid && a[j].category == b[j].category && a[j].date == b[j].date {
      assert a[j].(rolloverAmount := 0).date == b[j].(rolloverAmount := 0).date;
    }
    MonthBudgetIndexKeys(a, b, uid, category, r);
  }

  /** The amount carried to row `j` by the last previous budget that targets it with something unspent. */
  function LastCarry(budgets: seq<Budget>, prevs: seq<Budget>, uid: Uid, range: DateRange, j: nat): Option<int> {
    if prevs == [] then None
    else
      var p := prevs[|prevs| - 1];
      if MonthBudgetIndex(budgets, uid, p.category, range) == Some(j) && Unspent(p) > 0 then Some(Unspent(p))
      else LastCarry(budgets, prevs[..|prevs| - 1], uid, range, j)
  }

  /**
   * Row `j` after the pass: only its `rolloverAmount` may change, and then it is the
   * amount carried by the LAST previous budget that targets it; earlier values of
   * `rolloverAmount` (the row's or earlier iterations') play no part.
   */
  lemma {:induction false} RolloverAt(budgets: seq<Budget>, prevs: seq<Budget>, uid: Uid, range: DateRange, j: nat)
    requires j < |budgets|
    ensures Rollover(budgets, prevs, uid, range)[j]
      == match LastCarry(budgets, prevs, uid, range, j)
         case None => budgets[j]
         case Some(v) => budgets[j].(rolloverAmount := v)
    ensures SameKeys(Rollover(budgets, prevs, uid, range), budgets)
    decreases |prevs|
  {
    if prevs != [] {
      var init := prevs[..|prevs| - 1];
      var p := prevs[|prevs| - 1];
      RolloverAt(budgets, init, uid, range, j);
      var mid := Rollover(budgets, init, uid, range);
      SameKeysIndex(mid, budgets, uid, p.category, range);
      var res := CarryInto(mid, p, uid, range);
      if MonthBudgetIndex(budgets, uid, p.category, range).Some? && Unspent(p) > 0 {
        var t := MonthBudgetIndex(budgets, uid, p.category, range).value;
        assert res == mid[t := mid[t].(rolloverAmount := Unspent(p))];
        assert SameKeys(res, budgets) by {
          forall m | 0 <= m < |res| ensures res[m].(rolloverAmount := 0) == budgets[m].(rolloverAmount := 0) {
            assert mid[m].(rolloverAmount := 0) == budgets[m].(rolloverAmount := 0);
          }
        }
      }
    }
  }

  /** A rollover pass applied twice gives what it gives once: the amount is overwritten, not added. */
  lemma RolloverIdempotent(budgets: seq<Budget>, prevs: seq<Budget>, uid: Uid, range: DateRange)
    ensures Rollover(Rollover(budgets, prevs, uid, range), prevs, uid, range) == Rollover(budgets, prevs, uid, range)
  {
    var once := Rollover(budgets, prevs, uid, range);
    var twice := Rollover(once, prevs, uid, range);
    forall j | 0 <= j < |budgets| ensures twice[j] == once[j] {
      RolloverAt(budgets, prevs, uid, range, j);
      RolloverAt(once, prevs, uid, range, j);
      LastCarrySameKeys(once, budgets, prevs, uid, range, j);
    }
  }

  lemma {:induction false} LastCarrySameKeys(a: seq<Budget>, b: seq<Budget>, prevs: seq<Budget>, uid: Uid, range: DateRange, j: nat)
    requires SameKeys(a, b)
    ensures LastCarry(a, prevs, uid, range, j) == LastCarry(b, prevs, uid, range, j)
    decreases |prevs|
  {
    if prevs != [] {
      SameKeysIndex(a, b, uid, prevs[|prevs| - 1].category, range);
      LastCarrySameKeys(a, b, prevs[..|prevs| - 1], uid, range, j);
    }
  }

  // ---------------------------------------------------------------------------
  // PUT /budgets/:id and DELETE /budgets/:id
  // ---------------------------------------------------------------------------

  predicate IsOwnedBudget(b: Budget, id: Id, uid: Uid) {
    b.id == id && b.uid == uid
  }

  /** The record `findOneAndUpdate` writes: category, amount, strict flag, and the given date or now. */
  function PatchBudget(b: Budget, req: BudgetRequest, now: DateTime): (r: Budget)
    ensures r.id == b.id && r.uid == b.uid && r.spent == b.spent && r.rolloverAmount == b.rolloverAmount
    ensures r.rollover == IsStrictTrue(req.rollover) && r.date == req.date.GetOr(now)
    ensures r.category == req.category && r.budget == req.budget
  {
    b.(category := req.category, budget := req.budget, rollover := IsStrictTrue(req.rollover), date := req.date.GetOr(now))
  }

  method UpdateBudget(db: Database, uid: Uid, id: Id, req: BudgetRequest, now: DateTime) returns (r: Result<Budget>)
    requires db.Valid()
    modifies db`budgets
    ensures db.Valid()
    ensures match IndexOf(old(db.budgets), (b: Budget) => IsOwnedBudget(b, id, uid))
      case None => r == Err(NotFound("Budget not found")) && db.budgets == old(db.budgets)
      case Some(i) => r == Ok(PatchBudget(old(db.budgets)[i], req, now)) && db.budgets == old(db.budgets)[i := r.value]
  {
    var found := IndexOf(db.budgets, (b: Budget) => IsOwnedBudget(b, id, uid));
    if found.None? {
      return Err(NotFound("Budget not found"));
    }
    var i := found.value;
    var updatedBudget := PatchBudget(db.budgets[i], req, now);
    assert BudgetIds(db.budgets[i := updatedBudget]) == BudgetIds(db.budgets);
    db.budgets := db.budgets[i := updatedBudget];
    r := Ok(updatedBudget);
  }

  method DeleteBudget(db: Database, uid: Uid, id: Id) returns (r: Result<string>)
    requires db.Valid()
    modifies db`budgets
    ensures db.Valid()
    ensures match IndexOf(old(db.budgets), (b: Budget) => IsOwnedBudget(b, id, uid))
      case None => r == Err(NotFound("Budget not found")) && db.budgets == old(db.budgets)
      case Some(i) => r == Ok("Budget deleted successfully") && db.budgets == old(db.budgets)[..i] + old(db.budgets)[i + 1..]
  {
    var found := IndexOf(db.budgets, (b: Budget) => IsOwnedBudget(b, id, uid));
    if found.None? {
      return Err(NotFound("Budget not found"));
    }
    var i := found.value;
    assert BudgetIds(db.budgets[..i] + db.budgets[i + 1..]) == BudgetIds(db.budgets)[..i] + BudgetIds(db.budgets)[i + 1..];
    IdsFreshRemove(BudgetIds(db.budgets), i, db.nextId);
    db.budgets := db.budgets[..i] + db.budgets[i + 1..];
    r := Ok("Budget deleted successfully");
  }

  /**
   * Owner scoping: with unique ids the row PUT and DELETE act on is exactly the
   * caller's budget with that id, and a budget of another user is never touched.
   */
  lemma OwnerScoped(budgets: seq<Budget>, next: nat, uid: Uid, id: Id)
    requires IdsFresh(BudgetIds(budgets), next)
    ensures match IndexOf(budgets, (b: Budget) => IsOwnedBudget(b, id, uid))
      case None => forall j :: 0 <= j < |budgets| ==> budgets[j].id != id || budgets[j].uid != uid
      case Some(i) => (budgets[i].id == id && budgets[i].uid == uid
                       && forall j :: 0 <= j < |budgets| && j != i ==> budgets[j].id != id)
  {
    match IndexOf(budgets, (b: Budget) => IsOwnedBudget(b, id, uid))
    case None =>
    case Some(i) =>
      forall j | 0 <= j < |budgets| && j != i ensures budgets[j].id != id {
        assert BudgetIds(budgets)[j] == budgets[j].id && BudgetIds(budgets)[i] == budgets[i].id;
      }
  }
}
