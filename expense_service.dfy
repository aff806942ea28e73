/**
 * `ExpenseService`: adding, reading, updating and deleting expenses, each
 * adjusting the charged budget's `amountUsed` by the change in amount.
 */
module ExpenseService {
  import opened Wrappers
  import opened Entities
  import opened Ledger

  /**
   * Charges a new expense to the user's budget and stores it under a fresh
   * key; without a budget it answers `null` and changes nothing.
   */
  method AddExpense(db: Store, fields: ExpenseFields, user: UserId) returns (r: Option<Expense>)
    requires db.Valid()
    requires user in db.budgets ==> InInt32(db.budgets[user].amountUsed + fields.amount)
    modifies db, db.BudgetOf(user)`amountUsed
    ensures db.Valid()
    ensures old(db.Balanced()) ==> db.Balanced()
    ensures user !in old(db.budgets) ==> r == None && unchanged(db)
    ensures user in old(db.budgets) ==>
      && r == Some(Expense(old(db.nextExpenseId), fields, old(db.budgets[user])))
      && db.budgets == old(db.budgets)
      && db.expenses == old(db.expenses)[old(db.nextExpenseId) := r.value]
      && db.nextExpenseId == old(db.nextExpenseId) + 1
      && db.nextBudgetId == old(db.nextBudgetId)
      && db.budgets[user].amountUsed == old(db.budgets[user].amountUsed) + fields.amount
    ensures r.Some? ==> r.value in AllExpenses(db, user)
  {
    if user !in db.budgets {
      return None;
    }
    var budget := db.budgets[user];
    ghost var before := db.expenses;
    ghost var n := db.nextExpenseId;
    var expense := Expense(db.nextExpenseId, fields, budget);
    budget.SetAmountUsed(budget.amountUsed + fields.amount);
    db.expenses := db.expenses[db.nextExpenseId := expense];
    db.nextExpenseId := db.nextExpenseId + 1;
    forall u | u in db.budgets
      ensures Spent(db.expenses, db.budgets[u], n + 1)
           == Spent(before, db.budgets[u], n) + (if db.budgets[u] == budget then fields.amount else 0)
    {
      SpentAfterInsert(before, db.budgets[u], n, expense);
    }
    r := Some(expense);
  }

  /** `findByBudgetUser`: the stored expenses whose budget belongs to `user`. */
  function AllExpenses(db: Store, user: UserId): (r: set<Expense>)
    reads db, db.Objects()
    ensures forall e :: e in r ==> e in db.expenses.Values && e.budget.user == user
    ensures forall k :: k in db.expenses && db.expenses[k].budget.user == user ==> db.expenses[k] in r
  {
    set k | k in db.expenses && db.expenses[k].budget.user == user :: db.expenses[k]
  }

  /** `findById(id).orElse(null)`. */
  function GetExpenseById(db: Store, id: ExpenseId): (r: Option<Expense>)
    requires db.Valid()
    reads db, db.budgets.Values
    ensures r.None? <==> id !in db.expenses
    ensures r.Some? ==> r.value == db.expenses[id] && r.value.id == id
  {
    Get(db.expenses, id)
  }

  /**
   * Copies the five columns of `fields` onto the stored expense and moves
   * its budget's `amountUsed` by the difference in amount; the key and the
   * budget link stay. An unknown key answers `null` and changes nothing.
   */
  method UpdateExpense(db: Store, id: ExpenseId, fields: ExpenseFields) returns (r: Option<Expense>)
    requires db.Valid()
    requires id in db.expenses ==>
      InInt32(db.expenses[id].budget.amountUsed - db.expenses[id].fields.amount + fields.amount)
    modifies db, db.ChargedTo(id)`amountUsed
    ensures db.Valid()
    ensures old(db.Balanced()) ==> db.Balanced()
    ensures id !in old(db.expenses) ==> r == None && unchanged(db)
    ensures id in old(db.expenses) ==>
      var was := old(db.expenses[id]);
      && r == Some(Expense(id, fields, was.budget))
      && db.expenses == old(db.expenses)[id := r.value]
      && db.budgets == old(db.budgets)
      && db.nextExpenseId == old(db.nextExpenseId) && db.nextBudgetId == old(db.nextBudgetId)
      && was.budget.amountUsed == old(was.budget.amountUsed) - was.fields.amount + fields.amount
  {
    if id !in db.expenses {
      return None;
    }
    var existing := db.expenses[id];
    var budget := existing.budget;
    ghost var before := db.expenses;
    budget.SetAmountUsed(budget.amountUsed - existing.fields.amount + fields.amount);
    var updated := existing.(fields := fields);
    db.expenses := db.expenses[id := updated];
    forall u | u in db.budgets
      ensures Spent(db.expenses, db.budgets[u], db.nextExpenseId)
           == Spent(before, db.budgets[u], db.nextExpenseId) - Contribution(before, db.budgets[u], id)
              + (if db.budgets[u] == budget then fields.amount else 0)
    {
      SpentAfterReplace(before, db.budgets[u], db.nextExpenseId, id, updated);
    }
    r := Some(updated);
  }

  /**
   * Takes the stored expense's amount off its budget's `amountUsed` and
   * removes it; an unknown key is a no-op.
   */
  method DeleteExpense(db: Store, id: ExpenseId)
    requires db.Valid()
    requires id in db.expenses ==> InInt32(db.expenses[id].budget.amountUsed - db.expenses[id].fields.amount)
    modifies db, db.ChargedTo(id)`amountUsed
    ensures db.Valid()
    ensures old(db.Balanced()) ==> db.Balanced()
    ensures id !in old(db.expenses) ==> unchanged(db)
    ensures id in old(db.expenses) ==>
      var was := old(db.expenses[id]);
      && db.expenses == old(db.expenses) - {id}
      && db.budgets == old(db.budgets)
      && db.nextExpenseId == old(db.nextExpenseId) && db.nextBudgetId == old(db.nextBudgetId)
      && was.budget.amountUsed == old(was.budget.amountUsed) - was.fields.amount
  {
    if id !in db.expenses {
      return;
    }
    var expense := db.expenses[id];
    var budget := expense.budget;
    ghost var before := db.expenses;
    budget.SetAmountUsed(budget.amountUsed - expense.fields.amount);
    db.expenses := db.expenses - {id};
    forall u | u in db.budgets
      ensures Spent(db.expenses, db.budgets[u], db.nextExpenseId)
           == Spent(before, db.budgets[u], db.nextExpenseId) - Contribution(before, db.budgets[u], id)
    {
      SpentAfterRemove(before, db.budgets[u], db.nextExpenseId, id);
    }
  }
}
