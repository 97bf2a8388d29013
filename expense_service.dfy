/**
 * backend/services/expense.service.js: create, read, owner-checked update and delete
 * of expenses. Each operation is a transition function on the expense table and a
 * method on the store that performs it.
 */
module ExpenseService {
  import opened Wrappers
  import opened Dates
  import opened Seqs
  import opened Records

  const NotPositiveMessage := "Amount must be positive"
  const NotFoundMessage := "Expense not found"
  const NotOwnerMessage := "Unauthorized: You do not own this expense"

  /** The `expenseData` object handed to `createExpense`; absent fields take the schema defaults. */
  datatype ExpenseData = ExpenseData(
    uid: Uid,
    amount: int,
    payee: string,
    category: string,
    frequency: string,
    description: Option<string>,
    dueDate: Option<DateTime>,
    date: Option<DateTime>,
    active: Option<bool>,
    goalId: Option<Id>)

  // ---------------------------------------------------------------------------
  // createExpense
  // ---------------------------------------------------------------------------

  /**
   * `createExpense`: an amount that is not positive is refused and nothing is stored;
   * otherwise the data is stored as one new record, dated now and active unless the
   * data says otherwise.
   */
  function CreateExpense(expenses: seq<Expense>, id: Id, data: ExpenseData, now: DateTime): (out: (seq<Expense>, Result<Expense>))
    ensures out.1.Err? <==> data.amount <= 0
    ensures out.1.Err? ==> out == (expenses, Err(Validation(NotPositiveMessage)))
    ensures out.1.Ok? ==> out.0 == expenses + [out.1.value]
    ensures out.1.Ok? ==> var e := out.1.value;
      && e.id == id && e.uid == data.uid && e.amount == data.amount > 0
      && e.payee == data.payee && e.category == data.category && e.frequency == data.frequency
      && e.description == data.description && e.dueDate == data.dueDate && e.goalId == data.goalId
      && e.date == data.date.GetOr(now) && e.active == data.active.GetOr(true)
  {
    if data.amount <= 0 then (expenses, Err(Validation(NotPositiveMessage)))
    else
      var e := Expense(id, data.uid, data.amount, data.payee, data.category, data.frequency, data.description,
                       data.dueDate, data.date.GetOr(now), data.active.GetOr(true), data.goalId);
      (expenses + [e], Ok(e))
  }

  method CreateExpenseIn(db: Database, data: ExpenseData, now: DateTime) returns (r: Result<Expense>)
    requires db.Valid()
    modifies db`expenses, db`nextId
    ensures db.Valid()
    ensures (db.expenses, r) == CreateExpense(old(db.expenses), old(db.nextId), data, now)
  {
    if data.amount <= 0 {
      return Err(Validation(NotPositiveMessage));
    }
    var id := db.NewId();
    var e := Expense(id, data.uid, data.amount, data.payee, data.category, data.frequency, data.description,
                     data.dueDate, data.date.GetOr(now), data.active.GetOr(true), data.goalId);
    assert ExpenseIds(db.expenses + [e]) == ExpenseIds(db.expenses) + [id];
    IdsFreshSnoc(ExpenseIds(db.expenses), id, db.nextId);
    db.expenses := db.expenses + [e];
    r := Ok(e);
  }

  // ---------------------------------------------------------------------------
  // getExpensesByFirebaseUid, getExpenseById
  // ---------------------------------------------------------------------------

  /** `find({firebaseUid})`: the user's expenses, in table order. */
  function ExpensesOf(expenses: seq<Expense>, uid: Uid): (r: seq<Expense>)
    ensures forall i :: 0 <= i < |r| ==> r[i].uid == uid
    ensures multiset(r) <= multiset(expenses)
  {
    Filter(expenses, (e: Expense) => e.uid == uid)
  }

  /** `findById`: the position of the record with that id. */
  function FindExpense(expenses: seq<Expense>, id: Id): Option<nat> {
    IndexOf(expenses, (e: Expense) => e.id == id)
  }

  /** `getExpenseById`: the record with that id of any user, or "Expense not found". */
  function GetExpenseById(expenses: seq<Expense>, id: Id): (r: Result<Expense>)
    ensures r.Ok? ==> r.value in expenses && r.value.id == id
    ensures r.Err? <==> forall j :: 0 <= j < |expenses| ==> expenses[j].id != id
    ensures r.Err? ==> r.error == NotFound(NotFoundMessage)
  {
    match FindExpense(expenses, id)
    case None => Err(NotFound(NotFoundMessage))
    case Some(i) => Ok(expenses[i])
  }

  /** The user's listing is exactly the expenses stored with that uid, in table order. */
  lemma {:induction false} ExpensesOfExact(expenses: seq<Expense>, uid: Uid, e: Expense)
    ensures e in ExpensesOf(expenses, uid) <==> e in expenses && e.uid == uid
  {
    var p := (e: Expense) => e.uid == uid;
    if e in ExpensesOf(expenses, uid) {
      assert e in multiset(Filter(expenses, p));
    }
  }

  /** A new expense shows up at the end of its owner's listing and nowhere else. */
  lemma CreatedExpenseListed(expenses: seq<Expense>, id: Id, data: ExpenseData, now: DateTime, uid: Uid)
    requires data.amount > 0
    ensures var (t, r) := CreateExpense(expenses, id, data, now);
      ExpensesOf(t, uid) == ExpensesOf(expenses, uid) + (if uid == data.uid then [r.value] else [])
  {
    var (t, r) := CreateExpense(expenses, id, data, now);
    FilterSnoc(expenses, r.value, (e: Expense) => e.uid == uid);
  }

  // ---------------------------------------------------------------------------
  // updateExpense
  // ---------------------------------------------------------------------------

  /** The `updateData` object: only the fields present are written by `findByIdAndUpdate`. */
  datatype ExpensePatch = ExpensePatch(
    amount: Option<int>,
    payee: Option<string>,
    category: Option<string>,
    frequency: Option<string>,
    description: Option<string>,
    dueDate: Option<DateTime>,
    date: Option<DateTime>,
    active: Option<bool>,
    goalId: Option<Id>)

  /** The record after `findByIdAndUpdate(id, updateData)`. */
  function ApplyExpensePatch(e: Expense, p: ExpensePatch): (r: Expense)
    ensures r.id == e.id && r.uid == e.uid
    ensures p == ExpensePatch(None, None, None, None, None, None, None, None, None) ==> r == e
  {
    e.(amount := p.amount.GetOr(e.amount),
       payee := p.payee.GetOr(e.payee),
       category := p.category.GetOr(e.category),
       frequency := p.frequency.GetOr(e.frequency),
       description := if p.description.Some? then p.description else e.description,
       dueDate := if p.dueDate.Some? then p.dueDate else e.dueDate,
       date := p.date.GetOr(e.date),
       active := p.active.GetOr(e.active),
       goalId := if p.goalId.Some? then p.goalId else e.goalId)
  }

  /** `updateExpense`: "Expense not found", then the owner check, then the update (no amount check). */
  function UpdateExpense(expenses: seq<Expense>, id: Id, uid: Uid, p: ExpensePatch): (out: (seq<Expense>, Result<Expense>))
    ensures out.1.Err? ==> out.0 == expenses
    ensures out.1.Ok? ==>
      exists i :: 0 <= i < |expenses| && expenses[i].id == id && expenses[i].uid == uid
          && out.1.value == ApplyExpensePatch(expenses[i], p) && out.0 == expenses[i := out.1.value]
  {
    match FindExpense(expenses, id)
    case None => (expenses, Err(NotFound(NotFoundMessage)))
    case Some(i) =>
      if expenses[i].uid != uid then (expenses, Err(Unauthorized(NotOwnerMessage)))
      else
        var e := ApplyExpensePatch(expenses[i], p);
        (expenses[i := e], Ok(e))
  }

  method UpdateExpenseIn(db: Database, id: Id, uid: Uid, p: ExpensePatch) returns (r: Result<Expense>)
    requires db.Valid()
    modifies db`expenses
    ensures db.Valid()
    ensures (db.expenses, r) == UpdateExpense(old(db.expenses), id, uid, p)
  {
    var found := FindExpense(db.expenses, id);
    if found.None? {
      return Err(NotFound(NotFoundMessage));
    }
    var i := found.value;
    if db.expenses[i].uid != uid {
      return Err(Unauthorized(NotOwnerMessage));
    }
    var e := ApplyExpensePatch(db.expenses[i], p);
    assert ExpenseIds(db.expenses[i := e]) == ExpenseIds(db.expenses);
    db.expenses := db.expenses[i := e];
    r := Ok(e);
  }

  /** The checks run in order, and the update happens exactly when the caller owns the record. */
  lemma UpdateExpenseChecks(expenses: seq<Expense>, id: Id, uid: Uid, p: ExpensePatch)
    ensures var r := UpdateExpense(expenses, id, uid, p).1;
      && (r == Err(NotFound(NotFoundMessage)) <==> FindExpense(expenses, id).None?)
      && (r == Err(Unauthorized(NotOwnerMessage))
          <==> FindExpense(expenses, id).Some? && expenses[FindExpense(expenses, id).value].uid != uid)
      && (r.Ok? <==> FindExpense(expenses, id).Some? && expenses[FindExpense(expenses, id).value].uid == uid)
  {
  }

  /**
   * With unique ids, a successful update rewrites only the record with that id: every
   * other expense, of this user or another, is as it was.
   */
  lemma UpdateTouchesOneRecord(expenses: seq<Expense>, next: nat, id: Id, uid: Uid, p: ExpensePatch)
    requires IdsFresh(ExpenseIds(expenses), next)
    ensures var (t, r) := UpdateExpense(expenses, id, uid, p);
      |t| == |expenses| && forall j :: 0 <= j < |t| && expenses[j].id != id ==> t[j] == expenses[j]
  {
  }

  /** Only the fields present in the patch change. */
  lemma {:induction false} ExpensePatchOnlyGivenFields(e: Expense, p: ExpensePatch)
    ensures var r := ApplyExpensePatch(e, p);
      && (p.amount.None? ==> r.amount == e.amount) && (p.amount.Some? ==> r.amount == p.amount.value)
      && (p.payee.None? ==> r.payee == e.payee) && (p.payee.Some? ==> r.payee == p.payee.value)
      && (p.category.None? ==> r.category == e.category) && (p.category.Some? ==> r.category == p.category.value)
      && (p.frequency.None? ==> r.frequency == e.frequency) && (p.frequency.Some? ==> r.frequency == p.frequency.value)
      && (p.description.None? ==> r.description == e.description) && (p.description.Some? ==> r.description == p.description)
      && (p.dueDate.None? ==> r.dueDate == e.dueDate) && (p.dueDate.Some? ==> r.dueDate == p.dueDate)
      && (p.date.None? ==> r.date == e.date) && (p.date.Some? ==> r.date == p.date.value)
      && (p.active.None? ==> r.active == e.active) && (p.active.Some? ==> r.active == p.active.value)
      && (p.goalId.None? ==> r.goalId == e.goalId) && (p.goalId.Some? ==> r.goalId == p.goalId)
  {
  }

  /** Unlike `createExpense`, the update does not check the amount: a negative amount is stored. */
  lemma UpdateStoresAnyAmount(expenses: seq<Expense>, i: nat, amount: int)
    requires i < |expenses| && FindExpense(expenses, expenses[i].id) == Some(i)
    ensures var p := ExpensePatch(Some(amount), None, None, None, None, None, None, None, None);
      UpdateExpense(expenses, expenses[i].id, expenses[i].uid, p).1 == Ok(expenses[i].(amount := amount))
  {
  }

  // ---------------------------------------------------------------------------
  // deleteExpense
  // ---------------------------------------------------------------------------

  /** `deleteExpense`: the same two checks, then exactly that record is removed. */
  function DeleteExpense(expenses: seq<Expense>, id: Id, uid: Uid): (out: (seq<Expense>, Result<string>))
    ensures out.1.Err? ==> out.0 == expenses
    ensures out.1.Ok? ==> out.1.value == "Expense deleted successfully" && |out.0| == |expenses| - 1
    ensures out.1.Ok? ==>
      exists i :: 0 <= i < |expenses| && expenses[i].id == id && expenses[i].uid == uid
          && out.0 == expenses[..i] + expenses[i + 1..]
  {
    match FindExpense(expenses, id)
    case None => (expenses, Err(NotFound(NotFoundMessage)))
    case Some(i) =>
      if expenses[i].uid != uid then (expenses, Err(Unauthorized(NotOwnerMessage)))
      else (expenses[..i] + expenses[i + 1..], Ok("Expense deleted successfully"))
  }

  method DeleteExpenseIn(db: Database, id: Id, uid: Uid) returns (r: Result<string>)
    requires db.Valid()
    modifies db`expenses
    ensures db.Valid()
    ensures (db.expenses, r) == DeleteExpense(old(db.expenses), id, uid)
  {
    var found := FindExpense(db.expenses, id);
    if found.None? {
      return Err(NotFound(NotFoundMessage));
    }
    var i := found.value;
    if db.expenses[i].uid != uid {
      return Err(Unauthorized(NotOwnerMessage));
    }
    assert ExpenseIds(db.expenses[..i] + db.expenses[i + 1..]) == ExpenseIds(db.expenses)[..i] + ExpenseIds(db.expenses)[i + 1..];
    IdsFreshRemove(ExpenseIds(db.expenses), i, db.nextId);
    db.expenses := db.expenses[..i] + db.expenses[i + 1..];
    r := Ok("Expense deleted successfully");
  }

  /**
   * A successful delete removes exactly one record, the one with that id, and keeps
   * the others in order; with unique ids none with that id remains.
   */
  lemma DeleteExpenseEffect(expenses: seq<Expense>, next: nat, id: Id, uid: Uid)
    requires IdsFresh(ExpenseIds(expenses), next)
    ensures var (t, r) := DeleteExpense(expenses, id, uid);
      && (r == Err(NotFound(NotFoundMessage)) <==> forall j :: 0 <= j < |expenses| ==> expenses[j].id != id)
      && (r == Err(Unauthorized(NotOwnerMessage)) <==> exists j :: 0 <= j < |expenses| && expenses[j].id == id && expenses[j].uid != uid)
      && (r.Ok? ==> id !in ExpenseIds(t) && ExpensesOf(t, uid) == Filter(ExpensesOf(expenses, uid), (e: Expense) => e.id != id))
  {
    var (t, r) := DeleteExpense(expenses, id, uid);
    var ids := ExpenseIds(expenses);
    if FindExpense(expenses, id).Some? {
      var i := FindExpense(expenses, id).value;
      forall j | 0 <= j < |expenses| && j != i ensures expenses[j].id != id {
        assert ids[j] == expenses[j].id && ids[i] == expenses[i].id;
      }
      if r.Ok? {
        assert t == expenses[..i] + expenses[i + 1..];
        assert ExpenseIds(t) == ids[..i] + ids[i + 1..];
        RemoveFromListing(expenses, i, uid, id);
      }
    }
  }

  /** Removing the record at `i` from the table removes it, and only it, from its owner's listing. */
  lemma {:induction false} RemoveFromListing(expenses: seq<Expense>, i: nat, uid: Uid, id: Id)
    requires i < |expenses| && expenses[i].uid == uid && expenses[i].id == id
    requires forall j :: 0 <= j < |expenses| && j != i ==> expenses[j].id != id
    ensures ExpensesOf(expenses[..i] + expenses[i + 1..], uid) == Filter(ExpensesOf(expenses, uid), (e: Expense) => e.id != id)
  {
    var mine := (e: Expense) => e.uid == uid;
    var a := expenses[..i];
    var b := expenses[i + 1..];
    ListingAround(expenses, i, uid, a, b);
    PartsIdFree(expenses, i, id, a, b);
    FilterKeepsIdFree(a, mine, id);
    FilterKeepsIdFree(b, mine, id);
    DropOne(Filter(a, mine), expenses[i], Filter(b, mine), id);
  }

  /** The owner's listing around position `i`: the part before, the record, the part after. */
  lemma {:induction false} ListingAround(expenses: seq<Expense>, i: nat, uid: Uid, a: seq<Expense>, b: seq<Expense>)
    requires i < |expenses| && expenses[i].uid == uid && a == expenses[..i] && b == expenses[i + 1..]
    ensures ExpensesOf(expenses, uid) == Filter(a, (e: Expense) => e.uid == uid) + [expenses[i]] + Filter(b, (e: Expense) => e.uid == uid)
    ensures ExpensesOf(a + b, uid) == Filter(a, (e: Expense) => e.uid == uid) + Filter(b, (e: Expense) => e.uid == uid)
  {
    var mine := (e: Expense) => e.uid == uid;
    assert expenses == (a + [expenses[i]]) + b;
    FilterAppend(a + [expenses[i]], b, mine);
    FilterSnoc(a, expenses[i], mine);
    FilterAppend(a, b, mine);
  }

  /** Dropping the one record with id `id` from `fa + [x] + fb`. */
  lemma {:induction false} DropOne(fa: seq<Expense>, x: Expense, fb: seq<Expense>, id: Id)
    requires x.id == id
    requires forall j :: 0 <= j < |fa| ==> fa[j].id != id
    requires forall j :: 0 <= j < |fb| ==> fb[j].id != id
    ensures Filter(fa + [x] + fb, (e: Expense) => e.id != id) == fa + fb
  {
    var other := (e: Expense) => e.id != id;
    FilterAppend(fa + [x], fb, other);
    FilterSnoc(fa, x, other);
    FilterAll(fa, other);
    FilterAll(fb, other);
    calc {
      Filter(fa + [x] + fb, other);
      Filter(fa + [x], other) + Filter(fb, other);
      (Filter(fa, other) + []) + Filter(fb, other);
      { assert fa + [] == fa; }
      fa + fb;
    }
  }

  lemma PartsIdFree(expenses: seq<Expense>, i: nat, id: Id, a: seq<Expense>, b: seq<Expense>)
    requires i < |expenses| && a == expenses[..i] && b == expenses[i + 1..]
    requires forall j :: 0 <= j < |expenses| && j != i ==> expenses[j].id != id
    ensures forall j :: 0 <= j < |a| ==> a[j].id != id
    ensures forall j :: 0 <= j < |b| ==> b[j].id != id
  {
    forall j | 0 <= j < |b| ensures b[j].id != id {
      assert b[j] == expenses[i + 1 + j];
    }
  }

  /** A filtered sequence holds only records of the original, so an id absent there stays absent. */
  lemma FilterKeepsIdFree(s: seq<Expense>, p: Expense -> bool, id: Id)
    requires forall j :: 0 <= j < |s| ==> s[j].id != id
    ensures forall j :: 0 <= j < |Filter(s, p)| ==> Filter(s, p)[j].id != id
  {
    var f := Filter(s, p);
    forall j | 0 <= j < |f| ensures f[j].id != id {
      assert f[j] in multiset(s);
    }
  }
}
