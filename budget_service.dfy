/** `BudgetService`: one budget per user, created, read, updated and deleted. */
module BudgetService {
  import opened DayFormat
  import opened Entities
  import opened Ledger

  /** The request body of a budget create or update. */
  datatype BudgetInput = BudgetInput(startDate: Day, endDate: Day, amount: Int32, amountUsed: Int32)

  /**
   * Stores the request's budget under a fresh id with the caller as owner,
   * without looking for a budget the caller already has. A budget that
   * arrives with `amountUsed` zero keeps the ledger balanced.
   */
  method CreateBudget(db: Store, input: BudgetInput, user: UserId) returns (b: Budget)
    requires db.Valid()
    modifies db
    ensures fresh(b)
    ensures b.user == user && b.budgetId == old(db.nextBudgetId)
    ensures b.amount == input.amount && b.amountUsed == input.amountUsed
    ensures b.startDate == input.startDate && b.endDate == input.endDate
    ensures db.budgets == old(db.budgets)[user := b]
    ensures db.expenses == old(db.expenses) && db.nextExpenseId == old(db.nextExpenseId)
    ensures db.nextBudgetId == old(db.nextBudgetId) + 1
    ensures db.Valid()
    ensures old(db.Balanced()) && input.amountUsed == 0 ==> db.Balanced()
  {
    b := new Budget(db.nextBudgetId, input.startDate, input.endDate, input.amount, input.amountUsed, 0);
    b.SetUser(user);
    db.budgets := db.budgets[user := b];
    db.nextBudgetId := db.nextBudgetId + 1;
    SpentUnreferenced(db.expenses, b, db.nextExpenseId);
  }

  /** `findByUser`: the user's budget, or `null` when there is none. */
  function GetBudget(db: Store, user: UserId): (r: Budget?)
    requires db.Valid()
    reads db, db.budgets.Values
    ensures r == null <==> user !in db.budgets
    ensures r != null ==> r == db.budgets[user] && r.user == user
  {
    if user in db.budgets then db.budgets[user] else null
  }

  /**
   * Overwrites the amount and the two dates of the user's budget in place;
   * `amountUsed`, the id and the owner stay. Without a budget it answers
   * `null` and changes nothing.
   */
  method UpdateBudget(db: Store, input: BudgetInput, user: UserId) returns (r: Budget?)
    requires db.Valid()
    modifies db.BudgetOf(user)
    ensures db.Valid()
    ensures old(db.Balanced()) ==> db.Balanced()
    ensures user !in db.budgets ==> r == null
    ensures user in db.budgets ==>
      && r == db.budgets[user]
      && r.amount == input.amount && r.startDate == input.startDate && r.endDate == input.endDate
      && r.amountUsed == old(r.amountUsed) && r.budgetId == old(r.budgetId) && r.user == old(r.user)
  {
    if user !in db.budgets {
      return null;
    }
    var existing := db.budgets[user];
    existing.SetAmount(input.amount);
    existing.SetStartDate(input.startDate);
    existing.SetEndDate(input.endDate);
    r := existing;
  }

  /**
   * Removes the user's budget (so the user's back-link, the inverse side of
   * the one-to-one, finds nothing) and, by the cascade on `Budget.expenses`,
   * every expense charged to it. Without a budget it is a no-op.
   */
  method DeleteBudget(db: Store, user: UserId)
    requires db.Valid()
    modifies db
    ensures db.Valid()
    ensures old(db.Balanced()) ==> db.Balanced()
    ensures user !in old(db.budgets) ==> unchanged(db)
    ensures user in old(db.budgets) ==>
      && db.budgets == old(db.budgets) - {user}
      && db.expenses == WithoutBudget(old(db.expenses), old(db.budgets[user]))
      && db.nextExpenseId == old(db.nextExpenseId) && db.nextBudgetId == old(db.nextBudgetId)
    ensures user !in db.budgets
  {
    if user !in db.budgets {
      return;
    }
    var gone := db.budgets[user];
    ghost var before := db.expenses;
    db.budgets := db.budgets - {user};
    db.expenses := WithoutBudget(db.expenses, gone);
    forall u | u in db.budgets
      ensures Spent(db.expenses, db.budgets[u], db.nextExpenseId) == Spent(before, db.budgets[u], db.nextExpenseId)
    {
      SpentAfterCascade(before, gone, db.budgets[u], db.nextExpenseId);
    }
  }
}
