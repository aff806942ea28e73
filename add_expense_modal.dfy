/**
 * `AddExpenseModal.tsx`: the new-expense form, its defaults, the validator
 * that rebuilds the error dictionary, and the submit handler that passes the
 * form on only when it is valid. The amount is the number input's value,
 * kept as a real.
 */
module AddExpenseModal {
  import opened Wrappers
  import opened Strings

  datatype ExpenseForm = ExpenseForm(amount: real, date: string, description: string, kind: string, paymentMethod: string)

  /** The keys of the error dictionary. */
  datatype ErrorKey = AmountKey | DateKey | DescriptionKey

  /** The rule a field breaks; each has one fixed message. */
  datatype Rule = AmountNotPositive | DescriptionRequired | DateRequired

  function RuleMessage(rule: Rule): string {
    match rule
    case AmountNotPositive => "Amount must be greater than 0"
    case DescriptionRequired => "Description is required"
    case DateRequired => "Date is required"
  }

  /**
   * The form as first shown: amount 0, today's date (the part of the
   * current ISO timestamp before `T`), no description, type `Other`,
   * payment `Cash`.
   */
  function DefaultForm(nowIso: string): (f: ExpenseForm)
    ensures f.amount == 0.0 && f.description == "" && f.kind == "Other" && f.paymentMethod == "Cash"
    ensures 'T' !in f.date && StartsWith(nowIso, f.date)
  {
    ExpenseForm(0.0, BeforeFirst(nowIso, 'T'), "", "Other", "Cash")
  }

  /** The rule, if any, that the field under `key` breaks. */
  function ExpenseRule(form: ExpenseForm, key: ErrorKey): (r: Option<Rule>)
    ensures key == AmountKey ==> (r.Some? <==> form.amount <= 0.0) && (r.Some? ==> r.value == AmountNotPositive)
    ensures key == DescriptionKey ==> (r.Some? <==> IsBlank(form.description)) && (r.Some? ==> r.value == DescriptionRequired)
    ensures key == DateKey ==> (r.Some? <==> form.date == "") && (r.Some? ==> r.value == DateRequired)
  {
    match key
    case AmountKey => if form.amount <= 0.0 then Some(AmountNotPositive) else None
    case DescriptionKey => if IsBlank(form.description) then Some(DescriptionRequired) else None
    case DateKey => if form.date == "" then Some(DateRequired) else None
  }

  ghost predicate ValidExpense(form: ExpenseForm) {
    form.amount > 0.0 && !IsBlank(form.description) && form.date != ""
  }

  /** The form as first shown never validates: its amount is 0. */
  lemma DefaultFormInvalid(nowIso: string)
    ensures !ValidExpense(DefaultForm(nowIso))
    ensures ExpenseRule(DefaultForm(nowIso), AmountKey) == Some(AmountNotPositive)
  {
  }

  /** A dictionary holding exactly the broken rules is empty iff the form is valid. */
  lemma EmptyIffValid(form: ExpenseForm, errors: map<ErrorKey, Rule>)
    requires forall k :: Get(errors, k) == ExpenseRule(form, k)
    ensures errors == map[] <==> ValidExpense(form)
  {
    if errors != map[] {
      var k :| k in errors;
      assert Get(errors, k).Some?;
    } else {
      assert Get(errors, AmountKey).None?;
      assert Get(errors, DescriptionKey).None?;
      assert Get(errors, DateKey).None?;
    }
  }

  class ModalForm {
    var form: ExpenseForm
    var errors: map<ErrorKey, Rule>

    /** The modal as it opens at the instant `nowIso`. */
    constructor (nowIso: string)
      ensures form == DefaultForm(nowIso) && errors == map[]
    {
      form := DefaultForm(nowIso);
      errors := map[];
    }

    /**
     * `validate`: the dictionary is rebuilt from the current form alone, so
     * no earlier error survives, and the answer is whether it is empty.
     */
    method Validate() returns (valid: bool)
      modifies this`errors
      ensures forall k :: Get(errors, k) == ExpenseRule(form, k)
      ensures valid <==> errors == map[]
      ensures valid <==> ValidExpense(form)
    {
      var newErrors: map<ErrorKey, Rule> := map[];
      if form.amount <= 0.0 {
        newErrors := newErrors[AmountKey := AmountNotPositive];
      }
      if IsBlank(form.description) {
        newErrors := newErrors[DescriptionKey := DescriptionRequired];
      }
      if form.date == "" {
        newErrors := newErrors[DateKey := DateRequired];
      }
      errors := newErrors;
      valid := |errors.Keys| == 0;
      EmptyIffValid(form, errors);
    }

    /** `handleSubmit`: the form goes to `onAdd` exactly when it validates. */
    method HandleSubmit() returns (added: Option<ExpenseForm>)
      modifies this`errors
      ensures added.Some? <==> ValidExpense(form)
      ensures added.Some? ==> added.value == form
      ensures forall k :: Get(errors, k) == ExpenseRule(form, k)
    {
      var valid := Validate();
      added := if valid then Some(form) else None;
    }
  }
}
