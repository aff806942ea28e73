/**
 * `Dashboard.tsx`: the page's state (the budget, the expense list, the
 * loading and error flags and the two modal flags) and the handlers that
 * change it. Every network result and every `window.confirm` answer is an
 * input; `Promise.all` in `loadData` is one step that yields both results or
 * fails. The list can hold a blank entry: a mutation the server answers
 * with an empty 200 body (`null` on the Java side) yields `""`, which the
 * handlers store as they would an expense. `None` stands for that entry.
 */
module Dashboard {
  import opened Wrappers
  import opened ApiService

  /** `e.expenseid` for a list entry: a blank entry has none. */
  function IdOf(e: Option<Expense>): Option<int> {
    if e.Some? then e.value.expenseId else None
  }

  /** The list as loaded: every entry is an expense. */
  function Present(xs: seq<Expense>): (r: seq<Option<Expense>>)
    ensures |r| == |xs|
    ensures forall i :: 0 <= i < |xs| ==> r[i] == Some(xs[i])
  {
    if xs == [] then [] else [Some(xs[0])] + Present(xs[1..])
  }

  /** Whether every entry is an expense the list can draw. */
  predicate AllPresent(xs: seq<Option<Expense>>) {
    forall i :: 0 <= i < |xs| ==> xs[i].Some?
  }

  /** `expenses.map(e => e.expenseid === id ? updated : e)`. */
  function ReplaceById(xs: seq<Option<Expense>>, id: int, updated: Option<Expense>): (r: seq<Option<Expense>>)
    ensures |r| == |xs|
    ensures forall i :: 0 <= i < |xs| && IdOf(xs[i]) == Some(id) ==> r[i] == updated
    ensures forall i :: 0 <= i < |xs| && IdOf(xs[i]) != Some(id) ==> r[i] == xs[i]
  {
    if xs == [] then []
    else
      var rest := ReplaceById(xs[1..], id, updated);
      [if IdOf(xs[0]) == Some(id) then updated else xs[0]] + rest
  }

  /** `expenses.filter(e => e.expenseid !== id)`. */
  function RemoveById(xs: seq<Option<Expense>>, id: int): (r: seq<Option<Expense>>)
    ensures forall e :: e in r <==> e in xs && IdOf(e) != Some(id)
    ensures |r| <= |xs|
    ensures (forall e :: e in xs ==> IdOf(e) != Some(id)) ==> r == xs
  {
    if xs == [] then []
    else
      var rest := RemoveById(xs[1..], id);
      assert xs == [xs[0]] + xs[1..];
      if IdOf(xs[0]) == Some(id) then rest else [xs[0]] + rest
  }

  /** Filtering and replacing with an expense keep a list of expenses drawable. */
  lemma DrawableAfterEdits(xs: seq<Option<Expense>>, id: int, updated: Option<Expense>)
    requires AllPresent(xs)
    ensures AllPresent(RemoveById(xs, id))
    ensures updated.Some? ==> AllPresent(ReplaceById(xs, id, updated))
  {
    var r := RemoveById(xs, id);
    forall i | 0 <= i < |r|
      ensures r[i].Some?
    {
      assert r[i] in r;
      var j :| 0 <= j < |xs| && xs[j] == r[i];
    }
  }

  /** Appending keeps the list drawable exactly when the appended entry is an expense. */
  lemma DrawableAfterAppend(xs: seq<Option<Expense>>, e: Option<Expense>)
    ensures AllPresent(xs + [e]) <==> AllPresent(xs) && e.Some?
  {
    var ys := xs + [e];
    assert ys[|xs|] == e;
    if AllPresent(ys) {
      forall i | 0 <= i < |xs|
        ensures xs[i].Some?
      {
        assert ys[i] == xs[i];
      }
    }
  }

  /** Removal works element by element, so the survivors keep their relative order. */
  lemma {:induction false} RemoveByIdAppend(xs: seq<Option<Expense>>, ys: seq<Option<Expense>>, id: int)
    ensures RemoveById(xs + ys, id) == RemoveById(xs, id) + RemoveById(ys, id)
    decreases |xs|
  {
    if xs == [] {
      assert xs + ys == ys;
    } else {
      assert (xs + ys)[1..] == xs[1..] + ys;
      assert (xs + ys)[0] == xs[0];
      RemoveByIdAppend(xs[1..], ys, id);
    }
  }

  /** Replacing twice with the same server result is the same as replacing once. */
  lemma {:induction false} ReplaceByIdIdempotent(xs: seq<Option<Expense>>, id: int, updated: Option<Expense>)
    ensures ReplaceById(ReplaceById(xs, id, updated), id, updated) == ReplaceById(xs, id, updated)
  {
    var once := ReplaceById(xs, id, updated);
    var twice := ReplaceById(once, id, updated);
    forall i | 0 <= i < |xs|
      ensures twice[i] == once[i]
    {
      if IdOf(xs[i]) != Some(id) {
        assert once[i] == xs[i];
      }
    }
  }

  /** Deleting an id leaves nothing to replace under that id. */
  lemma ReplaceAfterRemove(xs: seq<Option<Expense>>, id: int, updated: Option<Expense>)
    ensures ReplaceById(RemoveById(xs, id), id, updated) == RemoveById(xs, id)
  {
    var r := RemoveById(xs, id);
    forall i | 0 <= i < |r|
      ensures IdOf(r[i]) != Some(id)
    {
      assert r[i] in r;
    }
  }

  /** The budget after a re-fetch: replaced only by a non-null result. */
  function Refreshed(current: Option<Budget>, refetch: Result<Option<Budget>, ApiError>): (r: Option<Budget>)
    ensures refetch.Ok? && refetch.value.Some? ==> r == refetch.value
    ensures !(refetch.Ok? && refetch.value.Some?) ==> r == current
    ensures current.Some? ==> r.Some?
  {
    if refetch.Ok? && refetch.value.Some? then refetch.value else current
  }

  /** What `alert` shows for a rejected call: the error's message, or the handler's default. */
  function AlertFor(e: ApiError, fallback: string): (m: ErrorMessage)
    ensures Truthy(e.message) ==> m == e.message
    ensures !Truthy(e.message) ==> m == Text(fallback)
  {
    MessageOr(e.message, fallback)
  }

  const LOAD_FAILED := "Failed to load data"
  const CREATE_BUDGET_FAILED := "Failed to create budget"
  const UPDATE_BUDGET_FAILED := "Failed to update budget"
  const DELETE_BUDGET_FAILED := "Failed to delete budget"
  const ADD_EXPENSE_FAILED := "Failed to add expense. Make sure you have a budget first."
  const UPDATE_EXPENSE_FAILED := "Failed to update expense"
  const DELETE_EXPENSE_FAILED := "Failed to delete expense"

  class DashboardState {
    var budget: Option<Budget>
    var expenses: seq<Option<Expense>>
    var loading: bool
    var error: Option<ErrorMessage>
    var showAddExpense: bool
    var showAddBudget: bool

    /** The first render: no budget, no expenses, loading, no error, both modals closed. */
    constructor ()
      ensures budget == None && expenses == [] && loading && error == None
      ensures !showAddExpense && !showAddBudget
    {
      budget := None;
      expenses := [];
      loading := true;
      error := None;
      showAddExpense := false;
      showAddBudget := false;
    }

    /** `loadData` up to the fetch: loading on, error cleared. */
    method BeginLoad()
      modifies this`loading, this`error
      ensures loading && error == None
    {
      loading := true;
      error := None;
    }

    /**
     * `loadData`: on success both the budget and the list come from the
     * fetch; on failure neither changes and the error banner holds the
     * message or `Failed to load data`. Loading ends on both paths.
     */
    method LoadData(fetched: Result<(Option<Budget>, seq<Expense>), ApiError>)
      modifies this`loading, this`error, this`budget, this`expenses
      ensures !loading
      ensures fetched.Ok? ==> budget == fetched.value.0 && expenses == Present(fetched.value.1) && error == None
      ensures fetched.Ok? ==> AllPresent(expenses)
      ensures fetched.Err? ==>
        && budget == old(budget) && expenses == old(expenses)
        && error == Some(AlertFor(fetched.error, LOAD_FAILED))
    {
      BeginLoad();
      match fetched {
        case Ok((b, xs)) =>
          budget := b;
          expenses := Present(xs);
        case Err(e) =>
          error := Some(AlertFor(e, LOAD_FAILED));
      }
      loading := false;
    }

    /** `handleAddBudget`: the created budget replaces the current one and the modal closes; a failure only alerts. */
    method HandleAddBudget(created: Result<Budget, ApiError>) returns (alert: Option<ErrorMessage>)
      modifies this`budget, this`showAddBudget
      ensures created.Ok? ==> budget == Some(created.value) && !showAddBudget && alert == None
      ensures created.Err? ==>
        budget == old(budget) && showAddBudget == old(showAddBudget)
        && alert == Some(AlertFor(created.error, CREATE_BUDGET_FAILED))
    {
      match created
      case Ok(b) =>
        budget := Some(b);
        showAddBudget := false;
        alert := None;
      case Err(e) =>
        alert := Some(AlertFor(e, CREATE_BUDGET_FAILED));
    }

    /**
     * `handleUpdateBudget`: the server's reply replaces the current budget,
     * and an empty body (the user has no budget on the server) leaves none,
     * so the page shows the no-budget card; a failure only alerts.
     */
    method HandleUpdateBudget(updated: Result<Option<Budget>, ApiError>) returns (alert: Option<ErrorMessage>)
      modifies this`budget
      ensures updated.Ok? ==> budget == updated.value && alert == None
      ensures updated.Ok? && updated.value.None? ==> budget.None?
      ensures updated.Err? ==> budget == old(budget) && alert == Some(AlertFor(updated.error, UPDATE_BUDGET_FAILED))
    {
      match updated
      case Ok(b) =>
        budget := b;
        alert := None;
      case Err(e) =>
        alert := Some(AlertFor(e, UPDATE_BUDGET_FAILED));
    }

    /**
     * `handleDeleteBudget`: a declined confirmation sends nothing and
     * changes nothing; a successful delete clears the budget and the list.
     */
    method HandleDeleteBudget(confirmed: bool, deleted: Result<(), ApiError>) returns (requested: bool, alert: Option<ErrorMessage>)
      modifies this`budget, this`expenses
      ensures requested == confirmed
      ensures !confirmed ==> budget == old(budget) && expenses == old(expenses) && alert == None
      ensures confirmed && deleted.Ok? ==> budget == None && expenses == [] && alert == None
      ensures confirmed && deleted.Err? ==>
        budget == old(budget) && expenses == old(expenses)
        && alert == Some(AlertFor(deleted.error, DELETE_BUDGET_FAILED))
    {
      alert := None;
      if !confirmed {
        requested := false;
        return;
      }
      requested := true;
      match deleted
      case Ok(_) =>
        budget := None;
        expenses := [];
      case Err(e) =>
        alert := Some(AlertFor(e, DELETE_BUDGET_FAILED));
    }

    /** The re-fetch after an expense change: a non-null budget replaces the current one; a failure is alerted. */
    method AfterExpenseChange(refetch: Result<Option<Budget>, ApiError>, fallback: string) returns (alert: Option<ErrorMessage>)
      modifies this`budget
      ensures budget == Refreshed(old(budget), refetch)
      ensures refetch.Ok? ==> alert == None
      ensures refetch.Err? ==> alert == Some(AlertFor(refetch.error, fallback))
    {
      match refetch
      case Ok(fetched) =>
        if fetched.Some? {
          budget := fetched;
        }
        alert := None;
      case Err(e) =>
        alert := Some(AlertFor(e, fallback));
    }

    /**
     * `handleAddExpense`: the created expense goes at the end of the list,
     * the modal closes, and the budget is re-fetched; an empty body (no
     * budget on the server) goes at the end as a blank entry; a rejected add
     * changes nothing.
     */
    method HandleAddExpense(added: Result<Option<Expense>, ApiError>, refetch: Result<Option<Budget>, ApiError>)
      returns (alert: Option<ErrorMessage>)
      modifies this`expenses, this`showAddExpense, this`budget
      ensures added.Ok? ==>
        && expenses == old(expenses) + [added.value]
        && (AllPresent(expenses) <==> AllPresent(old(expenses)) && added.value.Some?)
        && !showAddExpense
        && budget == Refreshed(old(budget), refetch)
        && alert == (if refetch.Err? then Some(AlertFor(refetch.error, ADD_EXPENSE_FAILED)) else None)
      ensures added.Err? ==>
        && expenses == old(expenses) && showAddExpense == old(showAddExpense) && budget == old(budget)
        && alert == Some(AlertFor(added.error, ADD_EXPENSE_FAILED))
    {
      match added
      case Ok(x) =>
        DrawableAfterAppend(expenses, x);
        expenses := expenses + [x];
        showAddExpense := false;
        alert := AfterExpenseChange(refetch, ADD_EXPENSE_FAILED);
      case Err(e) =>
        alert := Some(AlertFor(e, ADD_EXPENSE_FAILED));
    }

    /**
     * `handleUpdateExpense`: every entry with that id becomes the server's
     * result, the others stay in place, and the budget is re-fetched. An
     * empty body (the id is unknown to the server) turns those entries blank.
     */
    method HandleUpdateExpense(id: int, updated: Result<Option<Expense>, ApiError>, refetch: Result<Option<Budget>, ApiError>)
      returns (alert: Option<ErrorMessage>)
      modifies this`expenses, this`budget
      ensures updated.Ok? ==>
        && expenses == ReplaceById(old(expenses), id, updated.value)
        && (AllPresent(old(expenses)) && updated.value.Some? ==> AllPresent(expenses))
        && budget == Refreshed(old(budget), refetch)
        && alert == (if refetch.Err? then Some(AlertFor(refetch.error, UPDATE_EXPENSE_FAILED)) else None)
      ensures updated.Err? ==>
        && expenses == old(expenses) && budget == old(budget)
        && alert == Some(AlertFor(updated.error, UPDATE_EXPENSE_FAILED))
    {
      match updated
      case Ok(x) =>
        if AllPresent(expenses) {
          DrawableAfterEdits(expenses, id, x);
        }
        expenses := ReplaceById(expenses, id, x);
        alert := AfterExpenseChange(refetch, UPDATE_EXPENSE_FAILED);
      case Err(e) =>
        alert := Some(AlertFor(e, UPDATE_EXPENSE_FAILED));
    }

    /**
     * `handleDeleteExpense`: a declined confirmation sends nothing; a
     * successful delete drops exactly the entries with that id, keeps the
     * order of the rest, and re-fetches the budget.
     */
    method HandleDeleteExpense(confirmed: bool, id: int, deleted: Result<(), ApiError>, refetch: Result<Option<Budget>, ApiError>)
      returns (requested: bool, alert: Option<ErrorMessage>)
      modifies this`expenses, this`budget
      ensures requested == confirmed
      ensures !confirmed ==> expenses == old(expenses) && budget == old(budget) && alert == None
      ensures confirmed && deleted.Ok? ==>
        && expenses == RemoveById(old(expenses), id)
        && (AllPresent(old(expenses)) ==> AllPresent(expenses))
        && budget == Refreshed(old(budget), refetch)
        && alert == (if refetch.Err? then Some(AlertFor(refetch.error, DELETE_EXPENSE_FAILED)) else None)
      ensures confirmed && deleted.Err? ==>
        && expenses == old(expenses) && budget == old(budget)
        && alert == Some(AlertFor(deleted.error, DELETE_EXPENSE_FAILED))
    {
      alert := None;
      if !confirmed {
        requested := false;
        return;
      }
      requested := true;
      match deleted
      case Ok(_) =>
        if AllPresent(expenses) {
          DrawableAfterEdits(expenses, id, None);
        }
        expenses := RemoveById(expenses, id);
        alert := AfterExpenseChange(refetch, DELETE_EXPENSE_FAILED);
      case Err(e) =>
        alert := Some(AlertFor(e, DELETE_EXPENSE_FAILED));
    }

    /** The banner's close button. */
    method DismissError()
      modifies this`error
      ensures error == None
    {
      error := None;
    }
  }
}
