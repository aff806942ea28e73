/**
 * The two repositories the services share, and the ledger invariant they
 * are meant to keep: a budget's `amountUsed` is the sum of the amounts of the
 * expenses charged to it.
 */
module Ledger {
  import opened Entities

  /** What expense `i` of `m` adds to budget `b`'s total. */
  function Contribution(m: map<ExpenseId, Expense>, b: Budget, i: ExpenseId): int {
    if i in m && m[i].budget == b then m[i].fields.amount else 0
  }

  /** The sum of the amounts of the expenses with keys below `n` charged to `b`. */
  function Spent(m: map<ExpenseId, Expense>, b: Budget, n: nat): int {
    if n == 0 then 0 else Spent(m, b, n - 1) + Contribution(m, b, n - 1)
  }

  /** Two expense tables that charge `b` alike below `n` give `b` the same total. */
  lemma {:induction false} SpentFrame(m: map<ExpenseId, Expense>, m': map<ExpenseId, Expense>, b: Budget, n: nat)
    requires forall i :: 0 <= i < n ==> Contribution(m, b, i) == Contribution(m', b, i)
    ensures Spent(m', b, n) == Spent(m, b, n)
  {
    if n > 0 {
      SpentFrame(m, m', b, n - 1);
    }
  }

  /** Changing what one key `k` below `n` charges to `b` changes `b`'s total by the difference. */
  lemma {:induction false} SpentPointChange(m: map<ExpenseId, Expense>, m': map<ExpenseId, Expense>, b: Budget, n: nat, k: ExpenseId)
    requires k < n
    requires forall i :: 0 <= i < n && i != k ==> Contribution(m, b, i) == Contribution(m', b, i)
    ensures Spent(m', b, n) == Spent(m, b, n) - Contribution(m, b, k) + Contribution(m', b, k)
  {
    if k == n - 1 {
      SpentFrame(m, m', b, n - 1);
    } else {
      SpentPointChange(m, m', b, n - 1, k);
    }
  }

  /** No expense charged to `b` means a total of zero. */
  lemma {:induction false} SpentUnreferenced(m: map<ExpenseId, Expense>, b: Budget, n: nat)
    requires forall k :: k in m ==> m[k].budget != b
    ensures Spent(m, b, n) == 0
  {
    if n > 0 {
      SpentUnreferenced(m, b, n - 1);
    }
  }

  /** Storing a new expense under the next free key adds its amount to its budget's total only. */
  lemma SpentAfterInsert(m: map<ExpenseId, Expense>, b: Budget, n: nat, e: Expense)
    requires forall k :: k in m ==> k < n
    ensures Spent(m[n := e], b, n + 1) == Spent(m, b, n) + (if e.budget == b then e.fields.amount else 0)
  {
    SpentPointChange(m, m[n := e], b, n + 1, n);
  }

  /** Overwriting the expense under key `k` swaps its old contribution for the new one. */
  lemma SpentAfterReplace(m: map<ExpenseId, Expense>, b: Budget, n: nat, k: ExpenseId, e: Expense)
    requires k in m && k < n
    ensures Spent(m[k := e], b, n) == Spent(m, b, n) - Contribution(m, b, k) + (if e.budget == b then e.fields.amount else 0)
  {
    SpentPointChange(m, m[k := e], b, n, k);
  }

  /** Removing the expense under key `k` takes its contribution away. */
  lemma SpentAfterRemove(m: map<ExpenseId, Expense>, b: Budget, n: nat, k: ExpenseId)
    requires k in m && k < n
    ensures Spent(m - {k}, b, n) == Spent(m, b, n) - Contribution(m, b, k)
  {
    SpentPointChange(m, m - {k}, b, n, k);
  }

  /** The expenses still charged to some budget other than `gone`. */
  function WithoutBudget(m: map<ExpenseId, Expense>, gone: Budget): (r: map<ExpenseId, Expense>)
    ensures forall k :: k in r <==> k in m && m[k].budget != gone
    ensures forall k :: k in r ==> r[k] == m[k]
  {
    map k | k in m && m[k].budget != gone :: m[k]
  }

  /** Cascading the removal of one budget leaves every other budget's total as it was. */
  lemma SpentAfterCascade(m: map<ExpenseId, Expense>, gone: Budget, b: Budget, n: nat)
    requires b != gone
    ensures Spent(WithoutBudget(m, gone), b, n) == Spent(m, b, n)
  {
    SpentFrame(m, WithoutBudget(m, gone), b, n);
  }

  /**
   * The budget and expense repositories. `budgets` is `BudgetRepo` reached
   * through `findByUser`; `expenses` is `ExpenseRepo` keyed by id. Keys are
   * handed out by the two counters, as the identity columns do.
   */
  class Store {
    var budgets: map<UserId, Budget>
    var expenses: map<ExpenseId, Expense>
    var nextBudgetId: nat
    var nextExpenseId: nat

    constructor ()
      ensures budgets == map[] && expenses == map[]
      ensures nextBudgetId == 0 && nextExpenseId == 0
    {
      budgets := map[];
      expenses := map[];
      nextBudgetId := 0;
      nextExpenseId := 0;
    }

    /** The budget objects a service call may reach: the users' budgets and every expense's budget. */
    ghost function Objects(): set<Budget>
      reads this
    {
      budgets.Values + set k | k in expenses :: expenses[k].budget
    }

    /** The budget `findByUser(u)` finds, as a frame. */
    ghost function BudgetOf(u: UserId): set<Budget>
      reads this
    {
      if u in budgets then {budgets[u]} else {}
    }

    /** The budget the expense stored under `id` is charged to, as a frame. */
    ghost function ChargedTo(id: ExpenseId): set<Budget>
      reads this
    {
      if id in expenses then {expenses[id].budget} else {}
    }

    /** Every user's budget names that user as owner; every expense sits under its own key, below the counter. */
    ghost predicate Valid()
      reads this, budgets.Values
    {
      && (forall u :: u in budgets ==> budgets[u].user == u)
      && (forall k :: k in expenses ==> k < nextExpenseId && expenses[k].id == k)
    }

    /** The ledger invariant: each user's `amountUsed` is the sum of the expenses charged to that budget. */
    ghost predicate Balanced()
      reads this, budgets.Values
    {
      forall u :: u in budgets ==> budgets[u].amountUsed == Spent(expenses, budgets[u], nextExpenseId)
    }
  }
}
