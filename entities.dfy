/**
 * The backend's persistent entities. A budget is a mutable object whose
 * fields the services update in place; an expense is a record that holds a
 * reference to the budget it was charged to.
 */
module Entities {
  import opened DayFormat

  /** Java `int`. */
  type Int32 = x: int | -0x8000_0000 <= x < 0x8000_0000

  predicate InInt32(x: int) {
    -0x8000_0000 <= x < 0x8000_0000
  }

  /** The primary key of a user. */
  type UserId = nat

  /** The primary key of an expense. */
  type ExpenseId = nat

  class Budget {
    var budgetId: nat
    var startDate: Day
    var endDate: Day
    var amount: Int32
    var amountUsed: Int32
    /** The owning side of the one-to-one link to the user. */
    var user: UserId

    constructor (budgetId: nat, startDate: Day, endDate: Day, amount: Int32, amountUsed: Int32, user: UserId)
      ensures this.budgetId == budgetId && this.startDate == startDate && this.endDate == endDate
      ensures this.amount == amount && this.amountUsed == amountUsed && this.user == user
    {
      this.budgetId := budgetId;
      this.startDate := startDate;
      this.endDate := endDate;
      this.amount := amount;
      this.amountUsed := amountUsed;
      this.user := user;
    }

    method SetAmount(amount: Int32)
      modifies this`amount
      ensures this.amount == amount
    {
      this.amount := amount;
    }

    method SetAmountUsed(amountUsed: Int32)
      modifies this`amountUsed
      ensures this.amountUsed == amountUsed
    {
      this.amountUsed := amountUsed;
    }

    method SetStartDate(startDate: Day)
      modifies this`startDate
      ensures this.startDate == startDate
    {
      this.startDate := startDate;
    }

    method SetEndDate(endDate: Day)
      modifies this`endDate
      ensures this.endDate == endDate
    {
      this.endDate := endDate;
    }

    method SetUser(user: UserId)
      modifies this`user
      ensures this.user == user
    {
      this.user := user;
    }

    /** Charges an expense to this budget; the total and the dates are untouched. */
    method AddExpense(expense: Expense)
      requires InInt32(amountUsed + expense.fields.amount)
      modifies this`amountUsed
      ensures amountUsed == old(amountUsed) + expense.fields.amount
    {
      amountUsed := amountUsed + expense.fields.amount;
    }
  }

  /** The columns of an expense that a request body supplies and an update copies. */
  datatype ExpenseFields = ExpenseFields(
    amount: Int32,
    date: Day,
    description: string,
    kind: string,
    paymentMethod: string)

  /** A stored expense: its key, its columns and the budget it is charged to. */
  datatype Expense = Expense(id: ExpenseId, fields: ExpenseFields, budget: Budget)
}
