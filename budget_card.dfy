/**
 * `BudgetCard.tsx`: the figures derived from a budget (remaining amount,
 * over-budget flag, used percentage and progress-bar width) and the card's
 * edit state. The percentage is exact real arithmetic here.
 */
module BudgetCard {
  import ApiService

  /** `amount - amountUsed`. */
  function Remaining(b: ApiService.Budget): (r: int)
    ensures r + b.amountUsed == b.amount
  {
    b.amount - b.amountUsed
  }

  /** `remaining < 0`: more has been spent than budgeted. */
  predicate IsOverBudget(b: ApiService.Budget)
    ensures IsOverBudget(b) <==> b.amountUsed > b.amount
  {
    Remaining(b) < 0
  }

  /** `amount > 0 ? amountUsed / amount * 100 : 0`: never a division by zero or by a negative amount. */
  function PercentageUsed(b: ApiService.Budget): (p: real)
    ensures b.amount <= 0 ==> p == 0.0
    ensures b.amount > 0 ==> p * (b.amount as real) == (b.amountUsed as real) * 100.0
  {
    if b.amount > 0 then (b.amountUsed as real / b.amount as real) * 100.0 else 0.0
  }

  /** `Math.min(percentageUsed, 100)`: the progress bar never overflows. */
  function BarWidth(b: ApiService.Budget): (w: real)
    ensures w <= 100.0
    ensures w == PercentageUsed(b) || w == 100.0
    ensures PercentageUsed(b) <= 100.0 ==> w == PercentageUsed(b)
  {
    if PercentageUsed(b) < 100.0 then PercentageUsed(b) else 100.0
  }

  /** With a positive amount, the card shows over-budget exactly when more than 100% is used. */
  lemma OverBudgetIffOverFull(b: ApiService.Budget)
    requires b.amount > 0
    ensures IsOverBudget(b) <==> PercentageUsed(b) > 100.0
    ensures !IsOverBudget(b) ==> BarWidth(b) == PercentageUsed(b)
  {
    var a := b.amount as real;
    var p := PercentageUsed(b);
    assert p * a == (b.amountUsed as real) * 100.0;
    if p > 100.0 {
      assert p * a > 100.0 * a;
    } else {
      assert p * a <= 100.0 * a;
    }
  }

  /** With a positive amount and nothing spent beyond it, the bar is the exact percentage and not negative. */
  lemma BarWidthInRange(b: ApiService.Budget)
    requires b.amount > 0 && 0 <= b.amountUsed
    ensures 0.0 <= BarWidth(b) <= 100.0
  {
    var a := b.amount as real;
    var p := PercentageUsed(b);
    assert p * a == (b.amountUsed as real) * 100.0;
  }

  /** The fields the card's edit form holds. */
  datatype BudgetEdit = BudgetEdit(amount: int, startDate: string, endDate: string)

  function EditOf(b: ApiService.Budget): (e: BudgetEdit)
    ensures e.amount == b.amount && e.startDate == b.startDate && e.endDate == b.endDate
  {
    BudgetEdit(b.amount, b.startDate, b.endDate)
  }

  class CardState {
    var budget: ApiService.Budget
    var isEditing: bool
    var editData: BudgetEdit

    /** The card as it mounts: showing the budget, with the form seeded from it. */
    constructor (b: ApiService.Budget)
      ensures budget == b && !isEditing && editData == EditOf(b)
    {
      budget := b;
      isEditing := false;
      editData := EditOf(b);
    }

    /** A new `budget` prop: the form state is kept, so it may no longer match the budget. */
    method ReceiveBudget(b: ApiService.Budget)
      modifies this`budget
      ensures budget == b
    {
      budget := b;
    }

    /** The edit button: the form opens with whatever it already holds. */
    method StartEditing()
      modifies this`isEditing
      ensures isEditing
    {
      isEditing := true;
    }

    method SetAmount(amount: int)
      modifies this`editData
      ensures editData == old(editData).(amount := amount)
    {
      editData := editData.(amount := amount);
    }

    method SetStartDate(date: string)
      modifies this`editData
      ensures editData == old(editData).(startDate := date)
    {
      editData := editData.(startDate := date);
    }

    method SetEndDate(date: string)
      modifies this`editData
      ensures editData == old(editData).(endDate := date)
    {
      editData := editData.(endDate := date);
    }

    /** `handleSave`: the form goes to `onUpdate` and the card leaves edit mode. */
    method HandleSave() returns (sent: BudgetEdit)
      modifies this`isEditing
      ensures sent == editData && !isEditing
    {
      sent := editData;
      isEditing := false;
    }

    /** `handleCancel`: the form is reset from the budget and the card leaves edit mode. */
    method HandleCancel()
      modifies this`isEditing, this`editData
      ensures editData == EditOf(budget) && !isEditing
    {
      editData := EditOf(budget);
      isEditing := false;
    }
  }
}
