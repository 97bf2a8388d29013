/**
 * backend/services/budget.service.js: create, read, owner-checked update and delete
 * of budgets, and the incremental `updateBudgetSpent` that adds an amount to the
 * latest budget of a category. Each operation is a transition function on the
 * budget table and a method on the store that performs it.
 */
module BudgetService {
  import opened Wrappers
  import opened Dates
  import opened Seqs
  import opened Records

  const NotPositiveMessage := "Budget amount must be positive"
  const NotFoundMessage := "Budget not found"
  const NotOwnerMessage := "Unauthorized: You do not own this budget"

  /** The `budgetData` object handed to `createBudget`; absent fields take the schema defaults. */
  datatype BudgetData = BudgetData(
    uid: Uid,
    category: string,
    budget: int,
    spent: Option<int>,
    rollover: Option<bool>,
    rolloverAmount: Option<int>,
    date: Option<DateTime>)

  // ---------------------------------------------------------------------------
  // createBudget
  // ---------------------------------------------------------------------------

  /**
   * `createBudget`: an amount that is not positive is refused and nothing is stored;
   * otherwise one record is appended, with spent 0 when none (or a falsy 0) is given
   * and the schema defaults for the other absent fields.
   */
  function CreateBudget(budgets: seq<Budget>, id: Id, data: BudgetData, now: DateTime): (out: (seq<Budget>, Result<Budget>))
    ensures out.1.Err? <==> data.budget <= 0
    ensures out.1.Err? ==> out == (budgets, Err(Validation(NotPositiveMessage)))
    ensures out.1.Ok? ==> out.0 == budgets + [out.1.value]
    ensures out.1.Ok? ==> var b := out.1.value;
      && b.id == id && b.uid == data.uid && b.category == data.category && b.budget == data.budget > 0
      && b.spent == data.spent.GetOr(0)
      && b.rollover == data.rollover.GetOr(false) && b.rolloverAmount == data.rolloverAmount.GetOr(0)
      && b.date == data.date.GetOr(now)
  {
    if data.budget <= 0 then (budgets, Err(Validation(NotPositiveMessage)))
    else
      // `!budgetData.spent` holds for an absent field and for 0: both store 0.
      var spent := if data.spent.None? || data.spent == Some(0) then 0 else data.spent.value;
      var b := Budget(id, data.uid, data.category, data.budget, spent,
                      data.rollover.GetOr(false), data.rolloverAmount.GetOr(0), data.date.GetOr(now));
      (budgets + [b], Ok(b))
  }

  method CreateBudgetIn(db: Database, data: BudgetData, now: DateTime) returns (r: Result<Budget>)
    requires db.Valid()
    modifies db`budgets, db`nextId
    ensures db.Valid()
    ensures (db.budgets, r) == CreateBudget(old(db.budgets), old(db.nextId), data, now)
  {
    if data.budget <= 0 {
      return Err(Validation(NotPositiveMessage));
    }
    var id := db.NewId();
    var spent := if data.spent.None? || data.spent == Some(0) then 0 else data.spent.value;
    var b := Budget(id, data.uid, data.category, data.budget, spent,
                    data.rollover.GetOr(false), data.rolloverAmount.GetOr(0), data.date.GetOr(now));
    assert BudgetIds(db.budgets + [b]) == BudgetIds(db.budgets) + [id];
    IdsFreshSnoc(BudgetIds(db.budgets), id, db.nextId);
    db.budgets := db.budgets + [b];
    r := Ok(b);
  }

  // ---------------------------------------------------------------------------
  // getBudgetsByFirebaseUid, getBudgetById
  // ---------------------------------------------------------------------------

  /** `find({firebaseUid})`: the user's budgets, in table order. */
  function BudgetsOf(budgets: seq<Budget>, uid: Uid): (r: seq<Budget>)
    ensures forall i :: 0 <= i < |r| ==> r[i].uid == uid
    ensures multiset(r) <= multiset(budgets)
  {
    Filter(budgets, (b: Budget) => b.uid == uid)
  }

  /** `findById`: the position of the record with that id. */
  function FindBudget(budgets: seq<Budget>, id: Id): Option<nat> {
    IndexOf(budgets, (b: Budget) => b.id == id)
  }

  /** `getBudgetById`: the record with that id of any user, or "Budget not found". */
  function GetBudgetById(budgets: seq<Budget>, id: Id): (r: Result<Budget>)
    ensures r.Ok? ==> r.value in budgets && r.value.id == id
    ensures r.Err? <==> forall j :: 0 <= j < |budgets| ==> budgets[j].id != id
    ensures r.Err? ==> r.error == NotFound(NotFoundMessage)
  {
    match FindBudget(budgets, id)
    case None => Err(NotFound(NotFoundMessage))
    case Some(i) => Ok(budgets[i])
  }

  /** The user's listing is exactly the budgets stored with that uid. */
  lemma BudgetsOfExact(budgets: seq<Budget>, uid: Uid, b: Budget)
    ensures b in BudgetsOf(budgets, uid) <==> b in budgets && b.uid == uid
  {
    var p := (b: Budget) => b.uid == uid;
    if b in BudgetsOf(budgets, uid) {
      assert b in multiset(Filter(budgets, p));
    }
  }

  // ---------------------------------------------------------------------------
  // updateBudget
  // ---------------------------------------------------------------------------

  /** The `updateData` object: only the fields present are written by `findByIdAndUpdate`. */
  datatype BudgetPatch = BudgetPatch(
    category: Option<string>,
    budget: Option<int>,
    spent: Option<int>,
    rollover: Option<bool>,
    rolloverAmount: Option<int>,
    date: Option<DateTime>)

  /** The record after `findByIdAndUpdate(id, updateData)`. */
  function ApplyBudgetPatch(b: Budget, p: BudgetPatch): (r: Budget)
    ensures r.id == b.id && r.uid == b.uid
    ensures p == BudgetPatch(None, None, None, None, None, None) ==> r == b
  {
    b.(category := p.category.GetOr(b.category),
       budget := p.budget.GetOr(b.budget),
       spent := p.spent.GetOr(b.spent),
       rollover := p.rollover.GetOr(b.rollover),
       rolloverAmount := p.rolloverAmount.GetOr(b.rolloverAmount),
       date := p.date.GetOr(b.date))
  }

  /**
   * The amount guard as written, `updateData.budget && updateData.budget <= 0`: a
   * zero amount is falsy and slips past it.
   */
  predicate RejectsAmountAsWritten(p: BudgetPatch) {
    p.budget.Some? && p.budget.value != 0 && p.budget.value <= 0
  }

  /** The guard as intended: any amount that is given must be positive, as on create. */
  predicate RejectsAmount(p: BudgetPatch) {
    p.budget.Some? && p.budget.value <= 0
  }

  /** `updateBudget` with the corrected amount guard. */
  function UpdateBudget(budgets: seq<Budget>, id: Id, uid: Uid, p: BudgetPatch): (out: (seq<Budget>, Result<Budget>))
    ensures out.1.Err? ==> out.0 == budgets
    ensures out.1.Ok? ==>
      exists i :: 0 <= i < |budgets| && budgets[i].id == id && budgets[i].uid == uid
          && out.1.value == ApplyBudgetPatch(budgets[i], p) && out.0 == budgets[i := out.1.value]
    ensures out.1.Ok? ==> p.budget.Some? ==> out.1.value.budget > 0
  {
    match FindBudget(budgets, id)
    case None => (budgets, Err(NotFound(NotFoundMessage)))
    case Some(i) =>
      if budgets[i].uid != uid then (budgets, Err(Unauthorized(NotOwnerMessage)))
      else if RejectsAmount(p) then (budgets, Err(Validation(NotPositiveMessage)))
      else
        var b := ApplyBudgetPatch(budgets[i], p);
        (budgets[i := b], Ok(b))
  }

  method UpdateBudgetIn(db: Database, id: Id, uid: Uid, p: BudgetPatch) returns (r: Result<Budget>)
    requires db.Valid()
    modifies db`budgets
    ensures db.Valid()
    ensures (db.budgets, r) == UpdateBudget(old(db.budgets), id, uid, p)
  {
    var found := FindBudget(db.budgets, id);
    if found.None? {
      return Err(NotFound(NotFoundMessage));
    }
    var i := found.value;
    if db.budgets[i].uid != uid {
      return Err(Unauthorized(NotOwnerMessage));
    }
    if RejectsAmount(p) {
      return Err(Validation(NotPositiveMessage));
    }
    var b := ApplyBudgetPatch(db.budgets[i], p);
    assert BudgetIds(db.budgets[i := b]) == BudgetIds(db.budgets);
    db.budgets := db.budgets[i := b];
    r := Ok(b);
  }

  /**
   * `updateBudget` exactly as written, with the truthiness guard: a given amount can
   * be stored as 0, but never as a negative number.
   */
  function UpdateBudgetAsWritten(budgets: seq<Budget>, id: Id, uid: Uid, p: BudgetPatch): (out: (seq<Budget>, Result<Budget>))
    ensures out.1.Err? ==> out.0 == budgets
    ensures out.1.Ok? ==>
      exists i :: 0 <= i < |budgets| && budgets[i].id == id && budgets[i].uid == uid
          && out.1.value == ApplyBudgetPatch(budgets[i], p) && out.0 == budgets[i := out.1.value]
    ensures out.1.Ok? ==> p.budget.Some? ==> out.1.value.budget >= 0
  {
    match FindBudget(budgets, id)
    case None => (budgets, Err(NotFound(NotFoundMessage)))
    case Some(i) =>
      if budgets[i].uid != uid then (budgets, Err(Unauthorized(NotOwnerMessage)))
      else if RejectsAmountAsWritten(p) then (budgets, Err(Validation(NotPositiveMessage)))
      else
        var b := ApplyBudgetPatch(budgets[i], p);
        (budgets[i := b], Ok(b))
  }

  /** The two versions of `updateBudget` agree on every patch except one that sets the amount to 0. */
  lemma AsWrittenAgreesOffZero(budgets: seq<Budget>, id: Id, uid: Uid, p: BudgetPatch)
    requires p.budget != Some(0)
    ensures UpdateBudgetAsWritten(budgets, id, uid, p) == UpdateBudget(budgets, id, uid, p)
  {
  }

  /**
   * On the caller's own budget, `{budget: 0}` is stored by the code as written, while the
   * corrected guard refuses it and leaves the table alone.
   */
  lemma ZeroAmountStoredAsWritten(budgets: seq<Budget>, id: Id, uid: Uid, i: nat)
    requires FindBudget(budgets, id) == Some(i) && budgets[i].uid == uid
    ensures var p := BudgetPatch(None, Some(0), None, None, None, None);
      && UpdateBudgetAsWritten(budgets, id, uid, p) == (budgets[i := budgets[i].(budget := 0)], Ok(budgets[i].(budget := 0)))
      && UpdateBudget(budgets, id, uid, p) == (budgets, Err(Validation(NotPositiveMessage)))
  {
  }

  /**
   * The checks run in order: a missing record is reported before ownership, and
   * ownership before the amount; the update happens only when all three pass.
   */
  lemma UpdateBudgetChecks(budgets: seq<Budget>, id: Id, uid: Uid, p: BudgetPatch)
    ensures var r := UpdateBudget(budgets, id, uid, p).1;
      && (r == Err(NotFound(NotFoundMessage)) <==> FindBudget(budgets, id).None?)
      && (r == Err(Unauthorized(NotOwnerMessage))
          <==> FindBudget(budgets, id).Some? && budgets[FindBudget(budgets, id).value].uid != uid)
      && (r == Err(Validation(NotPositiveMessage))
          <==> FindBudget(budgets, id).Some? && budgets[FindBudget(budgets, id).value].uid == uid && RejectsAmount(p))
      && (r.Ok? <==> FindBudget(budgets, id).Some? && budgets[FindBudget(budgets, id).value].uid == uid && !RejectsAmount(p))
  {
  }

  /** Only the fields present in the patch change; the others keep their stored values. */
  lemma {:induction false} PatchOnlyGivenFields(b: Budget, p: BudgetPatch)
    ensures var r := ApplyBudgetPatch(b, p);
      && (p.category.None? ==> r.category == b.category) && (p.category.Some? ==> r.category == p.category.value)
      && (p.budget.None? ==> r.budget == b.budget) && (p.budget.Some? ==> r.budget == p.budget.value)
      && (p.spent.None? ==> r.spent == b.spent) && (p.spent.Some? ==> r.spent == p.spent.value)
      && (p.rollover.None? ==> r.rollover == b.rollover) && (p.rollover.Some? ==> r.rollover == p.rollover.value)
      && (p.rolloverAmount.None? ==> r.rolloverAmount == b.rolloverAmount)
      && (p.rolloverAmount.Some? ==> r.rolloverAmount == p.rolloverAmount.value)
      && (p.date.None? ==> r.date == b.date) && (p.date.Some? ==> r.date == p.date.value)
  {
  }

  /** Applying the same patch twice is the same as applying it once. */
  lemma PatchIdempotent(b: Budget, p: BudgetPatch)
    ensures ApplyBudgetPatch(ApplyBudgetPatch(b, p), p) == ApplyBudgetPatch(b, p)
  {
  }

  /**
   * The guard as written lets `{budget: 0}` through, so a stored budget can be set to an
   * amount `createBudget` refuses; the corrected guard refuses it.
   */
  lemma ZeroAmountSlipsThrough(b: Budget, id: Id, now: DateTime)
    ensures var p := BudgetPatch(None, Some(0), None, None, None, None);
      && !RejectsAmountAsWritten(p) && ApplyBudgetPatch(b, p).budget == 0
      && CreateBudget([], id, BudgetData(b.uid, b.category, 0, None, None, None, None), now).1.Err?
      && RejectsAmount(p)
  {
  }

  /** The corrected guard differs from the written one on exactly one input, an amount of 0. */
  lemma AsWrittenGuardDiffers(p: BudgetPatch)
    ensures RejectsAmount(p) != RejectsAmountAsWritten(p) <==> p.budget == Some(0)
  {
  }

  /** With the corrected guard an update accepts exactly the amounts `createBudget` accepts. */
  lemma UpdateAgreesWithCreate(budgets: seq<Budget>, id: Id, data: BudgetData, now: DateTime, p: BudgetPatch)
    requires p.budget == Some(data.budget)
    ensures RejectsAmount(p) <==> CreateBudget(budgets, id, data, now).1.Err?
  {
  }

  // ---------------------------------------------------------------------------
  // deleteBudget
  // ---------------------------------------------------------------------------

  /** `deleteBudget`: the same two checks, then exactly that record is removed. */
  function DeleteBudget(budgets: seq<Budget>, id: Id, uid: Uid): (out: (seq<Budget>, Result<string>))
    ensures out.1.Err? ==> out.0 == budgets
    ensures out.1.Ok? ==> out.1.value == "Budget deleted successfully" && |out.0| == |budgets| - 1
    ensures out.1.Ok? ==>
      exists i :: 0 <= i < |budgets| && budgets[i].id == id && budgets[i].uid == uid
          && out.0 == budgets[..i] + budgets[i + 1..]
  {
    match FindBudget(budgets, id)
    case None => (budgets, Err(NotFound(NotFoundMessage)))
    case Some(i) =>
      if budgets[i].uid != uid then (budgets, Err(Unauthorized(NotOwnerMessage)))
      else (budgets[..i] + budgets[i + 1..], Ok("Budget deleted successfully"))
  }

  method DeleteBudgetIn(db: Database, id: Id, uid: Uid) returns (r: Result<string>)
    requires db.Valid()
    modifies db`budgets
    ensures db.Valid()
    ensures (db.budgets, r) == DeleteBudget(old(db.budgets), id, uid)
  {
    var found := FindBudget(db.budgets, id);
    if found.None? {
      return Err(NotFound(NotFoundMessage));
    }
    var i := found.value;
    if db.budgets[i].uid != uid {
      return Err(Unauthorized(NotOwnerMessage));
    }
    assert BudgetIds(db.budgets[..i] + db.budgets[i + 1..]) == BudgetIds(db.budgets)[..i] + BudgetIds(db.budgets)[i + 1..];
    IdsFreshRemove(BudgetIds(db.budgets), i, db.nextId);
    db.budgets := db.budgets[..i] + db.budgets[i + 1..];
    r := Ok("Budget deleted successfully");
  }

  /**
   * With unique ids, a successful delete removes the record with that id and leaves
   * no record with it behind; a failed one reports the missing record before
   * ownership.
   */
  lemma DeleteBudgetEffect(budgets: seq<Budget>, next: nat, id: Id, uid: Uid)
    requires IdsFresh(BudgetIds(budgets), next)
    ensures var (t, r) := DeleteBudget(budgets, id, uid);
      && (r == Err(NotFound(NotFoundMessage)) <==> forall j :: 0 <= j < |budgets| ==> budgets[j].id != id)
      && (r == Err(Unauthorized(NotOwnerMessage)) <==> exists j :: 0 <= j < |budgets| && budgets[j].id == id && budgets[j].uid != uid)
      && (r.Ok? ==> id !in BudgetIds(t))
  {
    var (t, r) := DeleteBudget(budgets, id, uid);
    match FindBudget(budgets, id)
    case None =>
    case Some(i) =>
      forall j | 0 <= j < |budgets| && budgets[j].id == id ensures j == i {
        assert BudgetIds(budgets)[j] == BudgetIds(budgets)[i];
      }
    if r.Ok? {
      var i := FindBudget(budgets, id).value;
      var ids := BudgetIds(budgets);
      assert BudgetIds(t) == ids[..i] + ids[i + 1..];
      forall j | 0 <= j < |ids| && j != i ensures ids[j] != id {
        assert ids[i] == id;
      }
      assert forall k :: 0 <= k < |BudgetIds(t)| ==> BudgetIds(t)[k] == (if k < i then ids[k] else ids[k + 1]);
    }
  }

  // ---------------------------------------------------------------------------
  // updateBudgetSpent (incremental)
  // ---------------------------------------------------------------------------

  predicate OfCategory(b: Budget, uid: Uid, category: string) {
    b.uid == uid && b.category == category
  }

  /**
   * `findOne({firebaseUid, category}).sort({date: -1})`: a budget of the category with
   * the latest date. Among records with equal dates the store's order is not fixed;
   * the model takes the earliest in table order.
   */
  function LatestBudget(budgets: seq<Budget>, uid: Uid, category: string): (r: Option<nat>)
    ensures r.Some? ==> r.value < |budgets| && OfCategory(budgets[r.value], uid, category)
    ensures r.Some? ==>
      forall j :: 0 <= j < |budgets| && OfCategory(budgets[j], uid, category)
          ==> NotAfter(budgets[j].date, budgets[r.value].date)
    ensures r.None? <==> forall j :: 0 <= j < |budgets| ==> !OfCategory(budgets[j], uid, category)
  {
    if budgets == [] then None
    else
      var init := budgets[..|budgets| - 1];
      var last := budgets[|budgets| - 1];
      var best := LatestBudget(init, uid, category);
      if OfCategory(last, uid, category) && (best.None? || Before(budgets[best.value].date, last.date)) then
        // Every earlier match is at or before `budgets[best]`, which is before `last`.
        assert forall j :: 0 <= j < |init| && OfCategory(budgets[j], uid, category) ==> NotAfter(budgets[j].date, last.date) by {
          forall j | 0 <= j < |init| && OfCategory(budgets[j], uid, category)
            ensures NotAfter(budgets[j].date, last.date)
          {
            assert init[j] == budgets[j];
            NotAfterIsBeforeOrEqual(budgets[j].date, init[best.value].date);
            if budgets[j].date != init[best.value].date {
              BeforeTransitive(budgets[j].date, init[best.value].date, last.date);
            }
          }
        }
        Some(|budgets| - 1)
      else
        assert forall j :: 0 <= j < |init| ==> init[j] == budgets[j];
        best
  }

  /**
   * The incremental `updateBudgetSpent`: `spent += amount` on the latest budget of the
   * category; `None` and no change when the user has none.
   */
  function IncrementSpent(budgets: seq<Budget>, uid: Uid, category: string, amount: int): (out: (seq<Budget>, Option<Budget>))
    ensures |out.0| == |budgets|
    ensures out.1.None? <==> forall j :: 0 <= j < |budgets| ==> !OfCategory(budgets[j], uid, category)
    ensures out.1.None? ==> out.0 == budgets
    ensures out.1.Some? ==>
      exists i :: 0 <= i < |budgets| && OfCategory(budgets[i], uid, category)
          && out.1.value == budgets[i].(spent := budgets[i].spent + amount) && out.0 == budgets[i := out.1.value]
  {
    match LatestBudget(budgets, uid, category)
    case None => (budgets, None)
    case Some(i) =>
      var b := budgets[i].(spent := budgets[i].spent + amount);
      (budgets[i := b], Some(b))
  }

  method IncrementSpentIn(db: Database, uid: Uid, category: string, amount: int) returns (r: Option<Budget>)
    requires db.Valid()
    modifies db`budgets
    ensures db.Valid()
    ensures (db.budgets, r) == IncrementSpent(old(db.budgets), uid, category, amount)
  {
    var found := LatestBudget(db.budgets, uid, category);
    if found.None? {
      return None;
    }
    var i := found.value;
    var b := db.budgets[i].(spent := db.budgets[i].spent + amount);
    assert BudgetIds(db.budgets[i := b]) == BudgetIds(db.budgets);
    db.budgets := db.budgets[i := b];
    r := Some(b);
  }

  /** The updated budget is the latest of its category: no budget of the category is dated after it. */
  lemma IncrementTargetsLatest(budgets: seq<Budget>, uid: Uid, category: string, amount: int)
    ensures var (t, r) := IncrementSpent(budgets, uid, category, amount);
      r.Some? ==> forall j :: 0 <= j < |budgets| && OfCategory(budgets[j], uid, category) ==> NotAfter(budgets[j].date, r.value.date)
  {
  }

  /** Adding an amount and then its negation restores the table. */
  lemma {:induction false} IncrementUndo(budgets: seq<Budget>, uid: Uid, category: string, amount: int)
    ensures var (t, _) := IncrementSpent(budgets, uid, category, amount);
      IncrementSpent(t, uid, category, -amount).0 == budgets
  {
    var (t, r) := IncrementSpent(budgets, uid, category, amount);
    if r.Some? {
      var i := LatestBudget(budgets, uid, category).value;
      LatestBudgetKeys(budgets, t, uid, category);
      assert t[i := t[i].(spent := t[i].spent - amount)] == budgets;
    }
  }

  /** Two tables that agree on owner, category and date pick the same latest budget. */
  lemma {:induction false} LatestBudgetKeys(a: seq<Budget>, b: seq<Budget>, uid: Uid, category: string)
    requires |a| == |b|
    requires forall j :: 0 <= j < |a| ==> a[j].uid == b[j].uid && a[j].category == b[j].category && a[j].date == b[j].date
    ensures LatestBudget(a, uid, category) == LatestBudget(b, uid, category)
    decreases |a|
  {
    if a != [] {
      LatestBudgetKeys(a[..|a| - 1], b[..|b| - 1], uid, category);
    }
  }

  /** Successive increments of one category add up on the same record. */
  lemma {:induction false} IncrementsAdd(budgets: seq<Budget>, uid: Uid, category: string, x: int, y: int)
    ensures IncrementSpent(IncrementSpent(budgets, uid, category, x).0, uid, category, y).0
      == IncrementSpent(budgets, uid, category, x + y).0
  {
    var t := IncrementSpent(budgets, uid, category, x).0;
    match LatestBudget(budgets, uid, category)
    case None =>
      assert t == budgets;
      assert IncrementSpent(budgets, uid, category, y).0 == budgets;
      assert IncrementSpent(budgets, uid, category, x + y).0 == budgets;
      assert IncrementSpent(t, uid, category, y).0 == IncrementSpent(budgets, uid, category, x + y).0;
    case Some(i) =>
      var b := budgets[i];
      var b1, b2 := b.(spent := b.spent + x), b.(spent := b.spent + (x + y));
      IncrementAt(budgets, uid, category, x + y, i);
      var rhs := IncrementSpent(budgets, uid, category, x + y).0;
      assert rhs == budgets[i := b2];
      IncrementAt(budgets, uid, category, x, i);
      assert t == budgets[i := b1];
      LatestBudgetKeys(budgets, t, uid, category);
      IncrementAt(t, uid, category, y, i);
      var lhs := IncrementSpent(t, uid, category, y).0;
      assert lhs == t[i := t[i].(spent := t[i].spent + y)];
      assert t[i].(spent := t[i].spent + y) == b2;
      assert lhs == t[i := b2];
      assert lhs == budgets[i := b1][i := b2];
      UpdateTwice(budgets, i, b1, b2);
      assert lhs == budgets[i := b2];
      assert lhs == rhs;
  }

  /** Writing a position twice keeps the second write. */
  lemma UpdateTwice<T>(s: seq<T>, i: nat, a: T, b: T)
    requires i < |s|
    ensures s[i := a][i := b] == s[i := b]
  {
  }

  /** The increment on the latest budget at a known position. */
  lemma IncrementAt(budgets: seq<Budget>, uid: Uid, category: string, amount: int, i: nat)
    requires LatestBudget(budgets, uid, category) == Some(i)
    ensures i < |budgets|
    ensures IncrementSpent(budgets, uid, category, amount).0 == budgets[i := budgets[i].(spent := budgets[i].spent + amount)]
  {
  }
}
