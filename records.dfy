/**
 * The stored entities of backend/models (Expense, Budget, Goal, and the user record
 * the user service writes) and the in-memory store that stands for the document
 * database: one sequence per collection, in natural (insertion) order, so that
 * `findOne` is the first match and `find` keeps table order.
 */
module Records {
  import opened Wrappers
  import opened Dates
  import opened Seqs

  /** A Firebase user id, the tenancy key of every record. */
  type Uid = string

  /** A document id (`_id`). */
  type Id = nat

  /** backend/models/Expense.js; `history` is not modelled. */
  datatype Expense = Expense(
    id: Id,
    uid: Uid,
    amount: int,
    payee: string,
    category: string,
    frequency: string,
    description: Option<string>,
    dueDate: Option<DateTime>,
    date: DateTime,
    active: bool,
    goalId: Option<Id>)

  /** backend/models/Budget.js: `budget` is the amount, `spent` a cached sum. */
  datatype Budget = Budget(
    id: Id,
    uid: Uid,
    category: string,
    budget: int,
    spent: int,
    rollover: bool,
    rolloverAmount: int,
    date: DateTime)

  /** backend/models/Goal.js; `kind` is the `type` field ("Savings" or "Debt"). */
  datatype Goal = Goal(
    id: Id,
    uid: Uid,
    name: string,
    amount: int,
    progress: int,
    initialProgress: int,
    kind: string,
    duration: int,
    date: DateTime)

  /** The user record written by the user service. */
  datatype User = User(id: Id, email: string, username: string, uid: Uid)

  /** A request-body value, for the fields the source compares with `=== true`. */
  datatype JsonValue = JBool(b: bool) | JNumber(n: int) | JString(s: string) | JNull | JUndefined

  /** `value === true`: only the JSON boolean `true` qualifies. */
  predicate IsStrictTrue(v: JsonValue) {
    v == JBool(true)
  }

  function Max(a: int, b: int): int {
    if a >= b then a else b
  }

  function Min(a: int, b: int): int {
    if a <= b then a else b
  }

  /**
   * `Math.min(Math.max(0, x), amount)`, the clamp every progress write applies.
   * The lower bound is applied first, so a negative `amount` wins over 0.
   */
  function ClampProgress(x: int, amount: int): (r: int)
    ensures amount >= 0 ==> 0 <= r <= amount
    ensures 0 <= x <= amount ==> r == x
    ensures x > amount ==> r == amount
    ensures r <= amount && (amount >= 0 ==> r >= Min(x, amount))
  {
    Min(Max(0, x), amount)
  }

  /** `expenses.reduce((sum, e) => sum + e.amount, 0)`, and the `$sum` of an aggregation. */
  function Total(s: seq<Expense>): int {
    if s == [] then 0 else Total(s[..|s| - 1]) + s[|s| - 1].amount
  }

  lemma {:induction false} TotalAppend(a: seq<Expense>, b: seq<Expense>)
    ensures Total(a + b) == Total(a) + Total(b)
    decreases |b|
  {
    if b == [] {
      assert a + b == a;
    } else {
      assert (a + b)[..|a + b| - 1] == a + b[..|b| - 1];
      TotalAppend(a, b[..|b| - 1]);
    }
  }

  /** The sum over the expenses satisfying a query. */
  function FilteredTotal(s: seq<Expense>, p: Expense -> bool): int {
    Total(Filter(s, p))
  }

  /** Appending one expense adds its amount exactly when it satisfies the query. */
  lemma FilteredTotalSnoc(s: seq<Expense>, e: Expense, p: Expense -> bool)
    ensures FilteredTotal(s + [e], p) == FilteredTotal(s, p) + (if p(e) then e.amount else 0)
  {
    FilterSnoc(s, e, p);
    var f := Filter(s, p);
    if p(e) {
      assert (f + [e])[..|f + [e]| - 1] == f;
      assert Total(f + [e]) == Total(f) + e.amount;
    } else {
      assert f + [] == f;
    }
  }

  /** Two queries that agree on every stored expense give the same sum. */
  lemma FilteredTotalCongruent(s: seq<Expense>, p: Expense -> bool, q: Expense -> bool)
    requires forall i :: 0 <= i < |s| ==> p(s[i]) == q(s[i])
    ensures FilteredTotal(s, p) == FilteredTotal(s, q)
  {
    FilterCongruent(s, p, q);
  }

  /** All ids of a collection are distinct and below the next id handed out. */
  ghost predicate IdsFresh(ids: seq<Id>, next: nat) {
    && (forall i :: 0 <= i < |ids| ==> ids[i] < next)
    && (forall i, j :: 0 <= i < j < |ids| ==> ids[i] != ids[j])
  }

  function ExpenseIds(s: seq<Expense>): seq<Id> {
    seq(|s|, i requires 0 <= i < |s| => s[i].id)
  }

  function BudgetIds(s: seq<Budget>): seq<Id> {
    seq(|s|, i requires 0 <= i < |s| => s[i].id)
  }

  function GoalIds(s: seq<Goal>): seq<Id> {
    seq(|s|, i requires 0 <= i < |s| => s[i].id)
  }

  function UserIds(s: seq<User>): seq<Id> {
    seq(|s|, i requires 0 <= i < |s| => s[i].id)
  }

  /** The three collections a cascading route touches, as one value. */
  datatype Tables = Tables(expenses: seq<Expense>, budgets: seq<Budget>, goals: seq<Goal>)

  /** The document store: one table per collection and the id generator. */
  class Database {
    var expenses: seq<Expense>
    var budgets: seq<Budget>
    var goals: seq<Goal>
    var users: seq<User>
    var nextId: nat

    /** Ids are unique within each collection and below `nextId`. */
    ghost predicate Valid()
      reads this
    {
      && IdsFresh(ExpenseIds(expenses), nextId)
      && IdsFresh(BudgetIds(budgets), nextId)
      && IdsFresh(GoalIds(goals), nextId)
      && IdsFresh(UserIds(users), nextId)
    }

    function Snapshot(): Tables
      reads this
    {
      Tables(expenses, budgets, goals)
    }

    constructor ()
      ensures Valid()
      ensures expenses == [] && budgets == [] && goals == [] && users == []
    {
      expenses, budgets, goals, users, nextId := [], [], [], [], 0;
    }

    /** A new ObjectId: distinct from every id in the store. */
    method NewId() returns (id: Id)
      requires Valid()
      modifies this`nextId
      ensures Valid() && id == old(nextId) && nextId == id + 1
    {
      id := nextId;
      nextId := nextId + 1;
    }
  }

  /** Appending a record with a fresh id keeps the ids fresh. */
  lemma IdsFreshSnoc(ids: seq<Id>, id: Id, next: nat)
    requires IdsFresh(ids, id) && id < next
    ensures IdsFresh(ids + [id], next)
  {
  }

  /** Removing a record keeps the ids fresh. */
  lemma IdsFreshRemove(ids: seq<Id>, i: nat, next: nat)
    requires IdsFresh(ids, next) && i < |ids|
    ensures IdsFresh(ids[..i] + ids[i + 1..], next)
  {
    var r := ids[..i] + ids[i + 1..];
    forall a, b | 0 <= a < b < |r| ensures r[a] != r[b] {
      var a' := if a < i then a else a + 1;
      var b' := if b < i then b else b + 1;
      assert r[a] == ids[a'] && r[b] == ids[b'];
    }
  }

  /** In a collection with unique ids, a record is the first one with its id. */
  lemma FirstWithId<T>(s: seq<T>, ids: seq<Id>, next: nat, k: nat, p: T -> bool)
    requires IdsFresh(ids, next) && |ids| == |s| && k < |s| && p(s[k])
    requires forall j :: 0 <= j < |s| && p(s[j]) ==> ids[j] == ids[k]
    ensures IndexOf(s, p) == Some(k)
  {
  }
}
