/**
 * backend/routes/goalRoutes.js: the recompute-from-scratch path for a goal's
 * `progress` (`validateAndCorrectGoalProgress`), the bulk `/reconcile` and
 * `/details` endpoints built on it, and the POST, PUT and DELETE handlers.
 */
module GoalRoutes {
  import opened Wrappers
  import opened Dates
  import opened Seqs
  import opened Records

  /** The goal query `{_id: goalId, firebaseUid: userId}`. */
  predicate IsOwnedGoal(g: Goal, goalId: Id, uid: Uid) {
    g.id == goalId && g.uid == uid
  }

  /** The linked-expense query `{goalId, firebaseUid, active: true}`. */
  predicate IsLinkedActive(e: Expense, goalId: Id, uid: Uid) {
    e.goalId == Some(goalId) && e.uid == uid && e.active
  }

  /** The sum of the user's active expenses linked to the goal. */
  function LinkedTotal(expenses: seq<Expense>, goalId: Id, uid: Uid): int {
    FilteredTotal(expenses, (e: Expense) => IsLinkedActive(e, goalId, uid))
  }

  /** The one-time backward-compatibility seeding of `initialProgress`. */
  predicate NeedsSeeding(g: Goal, linked: int) {
    g.initialProgress == 0 && g.progress > 0 && linked == 0
  }

  /**
   * The goal record after `validateAndCorrectGoalProgress`, given the linked
   * active sum: `initialProgress` seeded if needed, then `progress` recomputed
   * and clamped.
   */
  function Reconciled(g: Goal, linked: int): (r: Goal)
    ensures Consistent(r, linked)
    ensures r == g.(initialProgress := r.initialProgress, progress := r.progress)
  {
    var initial := if NeedsSeeding(g, linked) then g.progress else g.initialProgress;
    g.(initialProgress := initial, progress := ClampProgress(initial + linked, g.amount))
  }

  /** The derived-state invariant of a goal: its progress is the clamped baseline plus linked sum. */
  predicate Consistent(g: Goal, linked: int) {
    g.progress == ClampProgress(g.initialProgress + linked, g.amount)
  }

  /** The goals table after the call, and the goal it returns (none when missing or not owned). */
  function ValidateAndCorrect(goals: seq<Goal>, expenses: seq<Expense>, goalId: Id, uid: Uid)
    : (out: (seq<Goal>, Option<Goal>))
    ensures |out.0| == |goals|
    ensures out.1.None? <==> forall j :: 0 <= j < |goals| ==> !IsOwnedGoal(goals[j], goalId, uid)
    ensures out.1.None? ==> out.0 == goals
  {
    match IndexOf(goals, (g: Goal) => IsOwnedGoal(g, goalId, uid))
    case None => (goals, None)
    case Some(i) =>
      var g := Reconciled(goals[i], LinkedTotal(expenses, goalId, uid));
      (goals[i := g], Some(g))
  }

  /** `validateAndCorrectGoalProgress(goalId, userId)`. */
  method ValidateAndCorrectGoalProgress(db: Database, goalId: Id, uid: Uid) returns (r: Option<Goal>)
    requires db.Valid()
    modifies db`goals
    ensures db.Valid()
    ensures (db.goals, r) == ValidateAndCorrect(old(db.goals), db.expenses, goalId, uid)
  {
    var found := IndexOf(db.goals, (g: Goal) => IsOwnedGoal(g, goalId, uid));
    if found.None? {
      return None;
    }
    var i := found.value;
    var goal := db.goals[i];
    var expensesTotal := FilteredTotal(db.expenses, (e: Expense) => IsLinkedActive(e, goalId, uid));
    ghost var original := goal;
    var initialProgress := goal.initialProgress;
    if initialProgress == 0 && goal.progress > 0 && expensesTotal == 0 {
      initialProgress := goal.progress;
      goal := goal.(initialProgress := initialProgress);
      WriteGoal(db, i, goal);
    }
    var validatedProgress := Max(0, initialProgress + expensesTotal);
    validatedProgress := Min(validatedProgress, goal.amount);
    if goal.progress != validatedProgress {
      goal := goal.(progress := validatedProgress);
      WriteGoal(db, i, goal);
    }
    assert goal == Reconciled(original, expensesTotal);
    assert db.goals == old(db.goals)[i := goal];
    r := Some(goal);
  }

  /** `goal.save()`: overwrite row `i` with a record of the same id. */
  method WriteGoal(db: Database, i: nat, g: Goal)
    requires db.Valid() && i < |db.goals| && g.id == db.goals[i].id
    modifies db`goals
    ensures db.Valid() && db.goals == old(db.goals)[i := g]
  {
    assert GoalIds(db.goals[i := g]) == GoalIds(db.goals);
    db.goals := db.goals[i := g];
  }

  // ---------------------------------------------------------------------------
  // Properties of the recompute
  // ---------------------------------------------------------------------------

  /** After reconciliation the goal satisfies the derived-state invariant, within `[0, amount]`. */
  lemma ReconciledIsConsistent(g: Goal, linked: int)
    ensures var r := Reconciled(g, linked);
      && Consistent(r, linked)
      && r.progress == Min(Max(0, r.initialProgress + linked), g.amount)
      && (g.amount >= 0 ==> 0 <= r.progress <= g.amount)
      && r.(progress := g.progress, initialProgress := g.initialProgress) == g
  {
  }

  /** Seeding copies `progress` into `initialProgress` exactly under its condition. */
  lemma SeedingRule(g: Goal, linked: int)
    ensures NeedsSeeding(g, linked) ==> Reconciled(g, linked).initialProgress == g.progress
    ensures !NeedsSeeding(g, linked) ==> Reconciled(g, linked).initialProgress == g.initialProgress
    ensures NeedsSeeding(g, linked) && g.amount >= g.progress ==> Reconciled(g, linked).progress == g.progress
  {
  }

  /** A consistent goal is left as it is: progress is written only when it differs. */
  lemma {:induction false} ConsistentIsFixed(g: Goal, linked: int)
    requires Consistent(g, linked)
    requires !NeedsSeeding(g, linked)
    ensures Reconciled(g, linked) == g
  {
  }

  /** A second reconciliation over the same expenses changes nothing. */
  lemma {:induction false} ReconciledIdempotent(g: Goal, linked: int)
    ensures Reconciled(Reconciled(g, linked), linked) == Reconciled(g, linked)
  {
    var r := Reconciled(g, linked);
    ReconciledIsConsistent(g, linked);
    assert !NeedsSeeding(r, linked) by {
      if r.initialProgress == 0 && linked == 0 {
        assert r.progress == ClampProgress(0, g.amount) <= 0;
      }
    }
    ConsistentIsFixed(r, linked);
  }

  /** Reconciling a goal that is missing or owned by someone else changes nothing and returns none. */
  lemma NotOwnedIsNoOp(goals: seq<Goal>, expenses: seq<Expense>, goalId: Id, uid: Uid)
    requires forall j :: 0 <= j < |goals| ==> goals[j].id != goalId || goals[j].uid != uid
    ensures ValidateAndCorrect(goals, expenses, goalId, uid) == (goals, None)
  {
  }

  /** The table-level call is idempotent too. */
  lemma {:induction false} ValidateAndCorrectIdempotent(goals: seq<Goal>, expenses: seq<Expense>, goalId: Id, uid: Uid)
    ensures var (t, r) := ValidateAndCorrect(goals, expenses, goalId, uid);
      ValidateAndCorrect(t, expenses, goalId, uid) == (t, r)
  {
    var (t, r) := ValidateAndCorrect(goals, expenses, goalId, uid);
    match IndexOf(goals, (g: Goal) => IsOwnedGoal(g, goalId, uid))
    case None =>
    case Some(i) =>
      var linked := LinkedTotal(expenses, goalId, uid);
      IndexOfSameKeys(goals, t, goalId, uid);
      ReconciledIdempotent(goals[i], linked);
      assert t[i := Reconciled(t[i], linked)] == t;
  }

  /** Reconciliation does not move a goal's id or owner, so lookups find the same row. */
  lemma {:induction false} IndexOfSameKeys(a: seq<Goal>, b: seq<Goal>, goalId: Id, uid: Uid)
    requires |a| == |b| && forall j :: 0 <= j < |a| ==> a[j].id == b[j].id && a[j].uid == b[j].uid
    ensures IndexOf(a, (g: Goal) => IsOwnedGoal(g, goalId, uid)) == IndexOf(b, (g: Goal) => IsOwnedGoal(g, goalId, uid))
    decreases |a|
  {
    if a != [] {
      IndexOfSameKeys(a[1..], b[1..], goalId, uid);
    }
  }

  // ---------------------------------------------------------------------------
  // Bulk reconciliation: `/reconcile` and `/details`
  // ---------------------------------------------------------------------------

  /** Every goal of the user reconciled against its own linked sum; other users' goals untouched. */
  function ReconcileAll(goals: seq<Goal>, expenses: seq<Expense>, uid: Uid): (r: seq<Goal>)
    ensures |r| == |goals|
  {
    if goals == [] then []
    else
      var g := goals[|goals| - 1];
      ReconcileAll(goals[..|goals| - 1], expenses, uid)
        + [if g.uid == uid then Reconciled(g, LinkedTotal(expenses, g.id, uid)) else g]
  }

  /** The (before, after) pair of every goal of the user, in table order. */
  function ReconcilePairs(goals: seq<Goal>, expenses: seq<Expense>, uid: Uid): seq<(Goal, Goal)> {
    if goals == [] then []
    else
      var g := goals[|goals| - 1];
      ReconcilePairs(goals[..|goals| - 1], expenses, uid)
        + (if g.uid == uid then [(g, Reconciled(g, LinkedTotal(expenses, g.id, uid)))] else [])
  }

  /** `ReconcileAll` keeps each goal's id and owner. */
  lemma {:induction false} ReconcileAllKeys(goals: seq<Goal>, expenses: seq<Expense>, uid: Uid, k: nat)
    requires k < |goals|
    ensures ReconcileAll(goals, expenses, uid)[k].id == goals[k].id
    ensures ReconcileAll(goals, expenses, uid)[k].uid == goals[k].uid
    decreases |goals|
  {
    if k < |goals| - 1 {
      ReconcileAllKeys(goals[..|goals| - 1], expenses, uid, k);
    }
  }

  /**
   * Runs `validateAndCorrectGoalProgress` on every goal of the user, in table order
   * (the source's `Promise.all` over `Goal.find({firebaseUid})`, taken sequentially),
   * and returns each goal before and after.
   */
  method ReconcileUserGoals(db: Database, uid: Uid) returns (pairs: seq<(Goal, Goal)>)
    requires db.Valid()
    modifies db`goals
    ensures db.Valid()
    ensures db.goals == ReconcileAll(old(db.goals), db.expenses, uid)
    ensures pairs == ReconcilePairs(old(db.goals), db.expenses, uid)
  {
    ghost var goals0 := db.goals;
    var n := |db.goals|;
    var k := 0;
    pairs := [];
    while k < n
      invariant n == |goals0|
      invariant 0 <= k <= |goals0|
      invariant db.Valid()
      invariant db.goals == ReconcileAll(goals0[..k], db.expenses, uid) + goals0[k..]
      invariant pairs == ReconcilePairs(goals0[..k], db.expenses, uid)
    {
      ReconcileStep(goals0, db.expenses, uid, k);
      var goal := db.goals[k];
      if goal.uid == uid {
        var updated := ReconcileAt(db, uid, k);
        pairs := pairs + [(goal, updated)];
      }
      k := k + 1;
    }
    assert goals0[..k] == goals0;
  }

  /** One step of the bulk reconciliation: the goal at `k` joins the reconciled prefix. */
  lemma ReconcileStep(goals0: seq<Goal>, expenses: seq<Expense>, uid: Uid, k: nat)
    requires k < |goals0|
    ensures var g := goals0[k];
      var done := ReconcileAll(goals0[..k], expenses, uid);
      && (done + goals0[k..])[k] == g
      && (g.uid == uid ==>
            && (done + goals0[k..])[k := Reconciled(g, LinkedTotal(expenses, g.id, uid))]
              == ReconcileAll(goals0[..k + 1], expenses, uid) + goals0[k + 1..]
            && ReconcilePairs(goals0[..k + 1], expenses, uid)
              == ReconcilePairs(goals0[..k], expenses, uid) + [(g, Reconciled(g, LinkedTotal(expenses, g.id, uid)))])
      && (g.uid != uid ==>
            && done + goals0[k..] == ReconcileAll(goals0[..k + 1], expenses, uid) + goals0[k + 1..]
            && ReconcilePairs(goals0[..k + 1], expenses, uid) == ReconcilePairs(goals0[..k], expenses, uid))
  {
    assert goals0[..k + 1][..k] == goals0[..k];
    var g := goals0[k];
    var done := ReconcileAll(goals0[..k], expenses, uid);
    assert goals0[k..] == [g] + goals0[k + 1..];
    if g.uid == uid {
      UpdateAtJoin(done, goals0[k..], Reconciled(g, LinkedTotal(expenses, g.id, uid)));
    } else {
      assert done + goals0[k..] == done + [g] + goals0[k + 1..];
    }
  }

  /** The call for the user's goal at position `k`: ids are unique, so the goal found is that one. */
  method ReconcileAt(db: Database, uid: Uid, k: nat) returns (updated: Goal)
    requires db.Valid() && k < |db.goals| && db.goals[k].uid == uid
    modifies db`goals
    ensures db.Valid()
    ensures updated == Reconciled(old(db.goals)[k], LinkedTotal(db.expenses, old(db.goals)[k].id, uid))
    ensures db.goals == old(db.goals)[k := updated]
  {
    var goal := db.goals[k];
    FirstWithId(db.goals, GoalIds(db.goals), db.nextId, k, (g: Goal) => IsOwnedGoal(g, goal.id, uid));
    ValidateAndCorrectAt(db.goals, db.expenses, goal.id, uid, k);
    var r := ValidateAndCorrectGoalProgress(db, goal.id, uid);
    updated := r.value;
  }

  /** The call on a goal found at a known position. */
  lemma ValidateAndCorrectAt(goals: seq<Goal>, expenses: seq<Expense>, goalId: Id, uid: Uid, i: nat)
    requires i < |goals| && IndexOf(goals, (g: Goal) => IsOwnedGoal(g, goalId, uid)) == Some(i)
    ensures var g := Reconciled(goals[i], LinkedTotal(expenses, goalId, uid));
      ValidateAndCorrect(goals, expenses, goalId, uid) == (goals[i := g], Some(g))
  {
  }

  /** Overwriting the first element after a prefix. */
  lemma UpdateAtJoin<T>(a: seq<T>, b: seq<T>, x: T)
    requires |b| > 0
    ensures (a + b)[|a| := x] == a + [x] + b[1..]
  {
  }

  /** One row of the `/reconcile` response. */
  datatype ReconcileEntry = ReconcileEntry(
    goalId: Id, name: string, kind: string, corrected: bool, oldProgress: int, newProgress: int)

  function Entries(pairs: seq<(Goal, Goal)>): (r: seq<ReconcileEntry>)
    ensures |r| == |pairs|
  {
    if pairs == [] then []
    else
      var (before, after) := pairs[|pairs| - 1];
      Entries(pairs[..|pairs| - 1])
        + [ReconcileEntry(before.id, before.name, before.kind, after.progress != before.progress,
                          before.progress, after.progress)]
  }

  /** `results.filter((r) => r.corrected).length`. */
  function CorrectedCount(results: seq<ReconcileEntry>): nat {
    |Filter(results, (r: ReconcileEntry) => r.corrected)|
  }

  /** `POST /reconcile`: the per-goal report and the number of corrected goals. */
  method Reconcile(db: Database, uid: Uid) returns (results: seq<ReconcileEntry>, correctedCount: nat)
    requires db.Valid()
    modifies db`goals
    ensures db.Valid()
    ensures db.goals == ReconcileAll(old(db.goals), db.expenses, uid)
    ensures results == Entries(ReconcilePairs(old(db.goals), db.expenses, uid))
    ensures correctedCount == CorrectedCount(results)
  {
    var pairs := ReconcileUserGoals(db, uid);
    results := Entries(pairs);
    correctedCount := |Filter(results, (r: ReconcileEntry) => r.corrected)|;
  }

  /** A report row is marked corrected exactly when old and new progress differ. */
  lemma {:induction false} EntriesMeaning(pairs: seq<(Goal, Goal)>, k: nat)
    requires k < |pairs|
    ensures var e := Entries(pairs)[k];
      && e.goalId == pairs[k].0.id && e.oldProgress == pairs[k].0.progress
      && e.newProgress == pairs[k].1.progress
      && (e.corrected <==> pairs[k].0.progress != pairs[k].1.progress)
    decreases |pairs|
  {
    if k < |pairs| - 1 {
      EntriesMeaning(pairs[..|pairs| - 1], k);
    }
  }

  /** A goal of the user whose stored progress the recompute would keep. */
  predicate ProgressUpToDate(g: Goal, expenses: seq<Expense>, uid: Uid) {
    g.uid == uid ==> Reconciled(g, LinkedTotal(expenses, g.id, uid)).progress == g.progress
  }

  predicate AllUpToDate(goals: seq<Goal>, expenses: seq<Expense>, uid: Uid) {
    forall j :: 0 <= j < |goals| ==> ProgressUpToDate(goals[j], expenses, uid)
  }

  /** The reported count is zero exactly when no goal of the user needed a progress correction. */
  lemma {:induction false} NoCorrectionsIff(goals: seq<Goal>, expenses: seq<Expense>, uid: Uid)
    ensures CorrectedCount(Entries(ReconcilePairs(goals, expenses, uid))) == 0
      <==> AllUpToDate(goals, expenses, uid)
    decreases |goals|
  {
    if goals != [] {
      var init := goals[..|goals| - 1];
      var g := goals[|goals| - 1];
      NoCorrectionsIff(init, expenses, uid);
      var pairs := ReconcilePairs(init, expenses, uid);
      var tail := if g.uid == uid then [(g, Reconciled(g, LinkedTotal(expenses, g.id, uid)))] else [];
      assert ReconcilePairs(goals, expenses, uid) == pairs + tail;
      CorrectedCountAppend(pairs, tail);
      TailCount(g, expenses, uid);
      AllUpToDateLast(goals, expenses, uid);
    }
  }

  lemma CorrectedCountAppend(a: seq<(Goal, Goal)>, b: seq<(Goal, Goal)>)
    requires |b| <= 1
    ensures CorrectedCount(Entries(a + b)) == CorrectedCount(Entries(a)) + CorrectedCount(Entries(b))
  {
    EntriesAppend(a, b);
    FilterAppend(Entries(a), Entries(b), (r: ReconcileEntry) => r.corrected);
  }

  lemma TailCount(g: Goal, expenses: seq<Expense>, uid: Uid)
    ensures var tail := if g.uid == uid then [(g, Reconciled(g, LinkedTotal(expenses, g.id, uid)))] else [];
      CorrectedCount(Entries(tail)) == 0 <==> ProgressUpToDate(g, expenses, uid)
  {
    if g.uid == uid {
      var tail := [(g, Reconciled(g, LinkedTotal(expenses, g.id, uid)))];
      var es := Entries(tail);
      assert tail[..0] == [];
      assert es == [es[0]];
      assert es[0].corrected <==> !ProgressUpToDate(g, expenses, uid);
      assert es[..0] == [];
    }
  }

  lemma AllUpToDateLast(goals: seq<Goal>, expenses: seq<Expense>, uid: Uid)
    requires goals != []
    ensures AllUpToDate(goals, expenses, uid)
      <==> AllUpToDate(goals[..|goals| - 1], expenses, uid) && ProgressUpToDate(goals[|goals| - 1], expenses, uid)
  {
    assert forall j :: 0 <= j < |goals| - 1 ==> goals[..|goals| - 1][j] == goals[j];
  }

  lemma {:induction false} EntriesAppend(a: seq<(Goal, Goal)>, b: seq<(Goal, Goal)>)
    requires |b| <= 1
    ensures Entries(a + b) == Entries(a) + Entries(b)
  {
    if b == [] {
      assert a + b == a;
    } else {
      assert (a + b)[..|a + b| - 1] == a;
      assert [b[0]][..0] == [];
    }
  }

  /** Reconciling all goals is idempotent. */
  lemma {:induction false} ReconcileAllIdempotent(goals: seq<Goal>, expenses: seq<Expense>, uid: Uid)
    ensures ReconcileAll(ReconcileAll(goals, expenses, uid), expenses, uid) == ReconcileAll(goals, expenses, uid)
    decreases |goals|
  {
    if goals != [] {
      var init := goals[..|goals| - 1];
      var g := goals[|goals| - 1];
      var r := ReconcileAll(goals, expenses, uid);
      ReconcileAllIdempotent(init, expenses, uid);
      assert r[..|r| - 1] == ReconcileAll(init, expenses, uid);
      if g.uid == uid {
        ReconciledIdempotent(g, LinkedTotal(expenses, g.id, uid));
      }
    }
  }

  /** A second `/reconcile` reports no corrections. */
  lemma SecondReconcileCorrectsNothing(goals: seq<Goal>, expenses: seq<Expense>, uid: Uid)
    ensures CorrectedCount(Entries(ReconcilePairs(ReconcileAll(goals, expenses, uid), expenses, uid))) == 0
  {
    var r := ReconcileAll(goals, expenses, uid);
    ReconcileAllIdempotent(goals, expenses, uid);
    forall j | 0 <= j < |r|
      ensures ProgressUpToDate(r[j], expenses, uid)
    {
      ReconcileAllAt(r, expenses, uid, j);
    }
    NoCorrectionsIff(r, expenses, uid);
  }

  /** Position `k` of `ReconcileAll`. */
  lemma {:induction false} ReconcileAllAt(goals: seq<Goal>, expenses: seq<Expense>, uid: Uid, k: nat)
    requires k < |goals|
    ensures ReconcileAll(goals, expenses, uid)[k]
      == if goals[k].uid == uid then Reconciled(goals[k], LinkedTotal(expenses, goals[k].id, uid)) else goals[k]
    decreases |goals|
  {
    if k < |goals| - 1 {
      ReconcileAllAt(goals[..|goals| - 1], expenses, uid, k);
    }
  }

  /** One row of the `/details` response. */
  datatype GoalDetail = GoalDetail(
    id: Id, name: string, kind: string, amount: int, duration: int, monthlyTarget: real,
    progress: int, remaining: int, initialProgress: int)

  /** The detail row of a goal, from its record before and after reconciliation. */
  function Detail(before: Goal, after: Goal): (d: GoalDetail)
    ensures d.duration != 0 && d.remaining >= 0
    ensures d.progress + d.remaining >= after.amount
    ensures d.id == before.id && d.amount == before.amount && d.progress == after.progress
  {
    var duration := if before.duration == 0 then 1 else before.duration;
    GoalDetail(before.id, before.name, before.kind, before.amount, duration,
               before.amount as real / duration as real, after.progress,
               if after.amount > after.progress then after.amount - after.progress else 0,
               after.initialProgress)
  }

  function Details(pairs: seq<(Goal, Goal)>): (r: seq<GoalDetail>)
    ensures |r| == |pairs|
    ensures forall k :: 0 <= k < |pairs| ==> r[k] == Detail(pairs[k].0, pairs[k].1)
  {
    seq(|pairs|, k requires 0 <= k < |pairs| => Detail(pairs[k].0, pairs[k].1))
  }

  /** `GET /details`: every goal of the user reconciled, with its remaining amount. */
  method GoalDetails(db: Database, uid: Uid) returns (details: seq<GoalDetail>)
    requires db.Valid()
    modifies db`goals
    ensures db.Valid()
    ensures db.goals == ReconcileAll(old(db.goals), db.expenses, uid)
    ensures details == Details(ReconcilePairs(old(db.goals), db.expenses, uid))
  {
    var pairs := ReconcileUserGoals(db, uid);
    details := Details(pairs);
  }

  /**
   * The detail of a reconciled goal with `amount >= 0`: the remaining amount is
   * `amount - progress`, never negative, and the monthly target spreads the amount
   * over the duration (1 when unset or 0).
   */
  lemma DetailOfReconciled(g: Goal, linked: int)
    requires g.amount >= 0
    ensures var d := Detail(g, Reconciled(g, linked));
      && d.remaining == g.amount - d.progress
      && 0 <= d.remaining <= g.amount
      && d.duration != 0
      && d.monthlyTarget * d.duration as real == g.amount as real
  {
  }

  // ---------------------------------------------------------------------------
  // POST, PUT and DELETE
  // ---------------------------------------------------------------------------

  /** The fields of a goal request body (`amount`, `name`, `type` are required by the schema). */
  datatype GoalRequest = GoalRequest(
    name: string, amount: int, progress: Option<int>, kind: string, duration: Option<int>, date: Option<DateTime>)

  /** The goal `POST /goals` stores: progress and baseline both the clamped requested progress. */
  function NewGoal(id: Id, uid: Uid, req: GoalRequest, now: DateTime): (g: Goal)
    ensures g.progress == g.initialProgress == ClampProgress(req.progress.GetOr(0), req.amount)
    ensures req.amount >= 0 ==> 0 <= g.progress <= g.amount
    ensures g.id == id && g.uid == uid && g.amount == req.amount && g.duration == req.duration.GetOr(1)
    ensures g.name == req.name && g.kind == req.kind && g.date == req.date.GetOr(now)
  {
    var validated := Min(Max(0, req.progress.GetOr(0)), req.amount);
    Goal(id, uid, req.name, req.amount, validated, validated, req.kind, req.duration.GetOr(1), req.date.GetOr(now))
  }

  /** A new goal already satisfies the derived-state invariant while nothing is linked to it. */
  lemma NewGoalIsConsistent(id: Id, uid: Uid, req: GoalRequest, now: DateTime)
    requires req.amount >= 0
    ensures Reconciled(NewGoal(id, uid, req, now), 0) == NewGoal(id, uid, req, now)
  {
  }

  /** `POST /goals`. */
  method AddGoal(db: Database, uid: Uid, req: GoalRequest, now: DateTime) returns (g: Goal)
    requires db.Valid()
    modifies db
    ensures db.Valid()
    ensures g == NewGoal(old(db.nextId), uid, req, now)
    ensures db.goals == old(db.goals) + [g]
    ensures db.expenses == old(db.expenses) && db.budgets == old(db.budgets) && db.users == old(db.users)
  {
    var id := db.NewId();
    g := NewGoal(id, uid, req, now);
    assert GoalIds(db.goals + [g]) == GoalIds(db.goals) + [id];
    IdsFreshSnoc(GoalIds(db.goals), id, db.nextId);
    db.goals := db.goals + [g];
  }

  /**
   * The record `PUT /goals/:id` writes: the request's fields, the clamped requested
   * progress, and a baseline that attributes the linked sum to the expenses.
   */
  function UpdatedGoal(g: Goal, req: GoalRequest, linked: int): (r: Goal)
    ensures r.progress == ClampProgress(req.progress.GetOr(0), req.amount)
    ensures r.initialProgress == Max(0, r.progress - linked)
    ensures r.id == g.id && r.uid == g.uid && r.date == g.date
    ensures r.name == req.name && r.amount == req.amount && r.kind == req.kind
    ensures r.duration == req.duration.GetOr(g.duration)
    ensures req.amount >= 0 ==> 0 <= r.progress <= r.amount
  {
    var validated := Min(Max(0, req.progress.GetOr(0)), req.amount);
    g.(name := req.name, amount := req.amount, progress := validated,
       initialProgress := Max(0, validated - linked), kind := req.kind,
       duration := req.duration.GetOr(g.duration))
  }

  /**
   * The PUT baseline agrees with the recompute path: when the requested progress is
   * at least the linked sum, a later reconciliation keeps it; when it is below, the
   * reconciliation lifts it to the (clamped) linked sum.
   */
  lemma UpdatedGoalThenReconcile(g: Goal, req: GoalRequest, linked: int)
    requires req.amount >= 0 && linked >= 0
    ensures var u := UpdatedGoal(g, req, linked);
      && (u.progress >= linked ==> Reconciled(u, linked) == u)
      && (u.progress < linked ==> Reconciled(u, linked).progress == ClampProgress(linked, req.amount))
  {
  }

  /** The goal row `findById` returns. */
  function GoalIndex(goals: seq<Goal>, id: Id): Option<nat> {
    IndexOf(goals, (g: Goal) => g.id == id)
  }

  /** `PUT /goals/:id`: not-found for a missing goal or one owned by someone else. */
  method UpdateGoal(db: Database, uid: Uid, id: Id, req: GoalRequest) returns (r: Result<Goal>)
    requires db.Valid()
    modifies db`goals
    ensures db.Valid()
    ensures match GoalIndex(old(db.goals), id)
      case None => r == Err(NotFound("Goal not found")) && db.goals == old(db.goals)
      case Some(i) =>
        if old(db.goals)[i].uid != uid then r == Err(NotFound("Goal not found")) && db.goals == old(db.goals)
        else
          var u := UpdatedGoal(old(db.goals)[i], req, LinkedTotal(db.expenses, id, uid));
          r == Ok(u) && db.goals == old(db.goals)[i := u]
  {
    var found := IndexOf(db.goals, (g: Goal) => g.id == id);
    if found.None? || db.goals[found.value].uid != uid {
      return Err(NotFound("Goal not found"));
    }
    var i := found.value;
    var expensesTotal := FilteredTotal(db.expenses, (e: Expense) => IsLinkedActive(e, id, uid));
    var updated := UpdatedGoal(db.goals[i], req, expensesTotal);
    WriteGoal(db, i, updated);
    r := Ok(updated);
  }

  /** The goal-link query of DELETE: `{goalId, firebaseUid}`, active or not. */
  predicate IsLinked(e: Expense, goalId: Id, uid: Uid) {
    e.goalId == Some(goalId) && e.uid == uid
  }

  /** `updateMany({goalId, firebaseUid}, {$set: {goalId: null}})`. */
  function Unlink(expenses: seq<Expense>, goalId: Id, uid: Uid): (r: seq<Expense>)
    ensures |r| == |expenses|
    ensures forall k :: 0 <= k < |r| ==> !IsLinked(r[k], goalId, uid)
    ensures forall k :: 0 <= k < |r| ==> r[k] == if IsLinked(expenses[k], goalId, uid) then expenses[k].(goalId := None) else expenses[k]
  {
    seq(|expenses|, k requires 0 <= k < |expenses| =>
      if IsLinked(expenses[k], goalId, uid) then expenses[k].(goalId := None) else expenses[k])
  }

  /** `DELETE /goals/:id`: the goal is removed and the number of unlinked expenses reported. */
  method DeleteGoal(db: Database, uid: Uid, id: Id) returns (r: Result<nat>)
    requires db.Valid()
    modifies db`goals, db`expenses
    ensures db.Valid()
    ensures match IndexOf(old(db.goals), (g: Goal) => IsOwnedGoal(g, id, uid))
      case None => r == Err(NotFound("Goal not found")) && db.goals == old(db.goals) && db.expenses == old(db.expenses)
      case Some(i) =>
        && r == Ok(|Filter(old(db.expenses), (e: Expense) => IsLinked(e, id, uid))|)
        && db.expenses == Unlink(old(db.expenses), id, uid)
        && db.goals == old(db.goals)[..i] + old(db.goals)[i + 1..]
  {
    var found := IndexOf(db.goals, (g: Goal) => IsOwnedGoal(g, id, uid));
    if found.None? {
      return Err(NotFound("Goal not found"));
    }
    var i := found.value;
    var linkedExpenses := Filter(db.expenses, (e: Expense) => IsLinked(e, id, uid));
    if |linkedExpenses| > 0 {
      UnlinkGoalExpenses(db, id, uid);
    } else {
      UnlinkNothing(db.expenses, id, uid);
    }
    RemoveGoal(db, i);
    r := Ok(|linkedExpenses|);
  }

  /** The `updateMany` step of DELETE. */
  method UnlinkGoalExpenses(db: Database, id: Id, uid: Uid)
    requires db.Valid()
    modifies db`expenses
    ensures db.Valid()
    ensures db.expenses == Unlink(old(db.expenses), id, uid)
  {
    var unlinked := Unlink(db.expenses, id, uid);
    assert ExpenseIds(unlinked) == ExpenseIds(db.expenses);
    db.expenses := unlinked;
  }

  /** The `findOneAndDelete` step of DELETE: the goal at `i` is removed. */
  method RemoveGoal(db: Database, i: nat)
    requires db.Valid() && i < |db.goals|
    modifies db`goals
    ensures db.Valid()
    ensures db.goals == old(db.goals)[..i] + old(db.goals)[i + 1..]
  {
    assert GoalIds(db.goals[..i] + db.goals[i + 1..]) == GoalIds(db.goals)[..i] + GoalIds(db.goals)[i + 1..];
    IdsFreshRemove(GoalIds(db.goals), i, db.nextId);
    db.goals := db.goals[..i] + db.goals[i + 1..];
  }

  /** With no linked expense, unlinking changes nothing, so skipping the update is the same. */
  lemma UnlinkNothing(expenses: seq<Expense>, goalId: Id, uid: Uid)
    requires |Filter(expenses, (e: Expense) => IsLinked(e, goalId, uid))| == 0
    ensures Unlink(expenses, goalId, uid) == expenses
  {
  }

  /** After DELETE no goal with that id remains (ids are unique). */
  lemma DeletedGoalIsGone(goals: seq<Goal>, next: nat, i: nat)
    requires IdsFresh(GoalIds(goals), next) && i < |goals|
    ensures goals[i].id !in GoalIds(goals[..i] + goals[i + 1..])
  {
    var r := goals[..i] + goals[i + 1..];
    forall j | 0 <= j < |r| ensures GoalIds(r)[j] != goals[i].id {
      var j' := if j < i then j else j + 1;
      assert r[j] == goals[j'] && GoalIds(goals)[j'] == goals[j'].id && GoalIds(goals)[i] == goals[i].id;
    }
  }
}
