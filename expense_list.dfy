/**
 * `ExpenseList.tsx`: the inline edit state, the icon lookups, and the
 * newest-first ordering of the rendered list. Dates are compared through
 * `timestamp`, which stands for `new Date(date).getTime()`.
 */
module ExpenseList {
  import opened Wrappers
  import opened Strings
  import ApiService

  /** `Partial<Expense>`: the fields the edit form holds. */
  datatype EditDraft = EditDraft(
    amount: Option<int>,
    date: Option<string>,
    description: Option<string>,
    kind: Option<string>,
    paymentMethod: Option<string>)

  const EMPTY_DRAFT := EditDraft(None, None, None, None, None)

  /** The draft `startEdit` fills in: the four plain fields copied, the date cut before its `T`. */
  function DraftOf(e: ApiService.Expense): (d: EditDraft)
    ensures d.amount == Some(e.amount) && d.description == Some(e.description)
    ensures d.kind == Some(e.kind) && d.paymentMethod == Some(e.paymentMethod)
    ensures d.date.Some? && 'T' !in d.date.value && StartsWith(e.date, d.date.value)
    ensures 'T' !in e.date ==> d.date == Some(e.date)
  {
    EditDraft(Some(e.amount), Some(BeforeFirst(e.date, 'T')), Some(e.description), Some(e.kind), Some(e.paymentMethod))
  }

  /** Which row is being edited and what its form holds. */
  class EditState {
    var editingId: Option<int>
    var editData: EditDraft

    constructor ()
      ensures editingId == None && editData == EMPTY_DRAFT
    {
      editingId := None;
      editData := EMPTY_DRAFT;
    }

    /** `startEdit`: that expense's row opens with its fields. */
    method StartEdit(e: ApiService.Expense)
      modifies this
      ensures editingId == e.expenseId && editData == DraftOf(e)
    {
      editingId := e.expenseId;
      editData := DraftOf(e);
    }

    /** `handleSave`: `(id, editData)` goes to `onUpdate`; the row closes but the draft is kept. */
    method HandleSave(id: int) returns (sentId: int, sent: EditDraft)
      modifies this`editingId
      ensures sentId == id && sent == editData
      ensures editingId == None
    {
      sentId := id;
      sent := editData;
      editingId := None;
    }

    /** `handleCancel`: the row closes and the draft is emptied. */
    method HandleCancel()
      modifies this
      ensures editingId == None && editData == EMPTY_DRAFT
    {
      editingId := None;
      editData := EMPTY_DRAFT;
    }
  }

  // Icons

  const DEFAULT_ICON := "\U{1F4B0}"

  const TYPE_ICONS: map<string, string> := map[
    "food" := "\U{1F354}",
    "transport" := "\U{1F697}",
    "entertainment" := "\U{1F3AC}",
    "shopping" := "\U{1F6CD}\U{FE0F}",
    "utilities" := "\U{1F4A1}",
    "health" := "\U{1F48A}",
    "education" := "\U{1F4DA}",
    "other" := "\U{1F4DD}"]

  const PAYMENT_ICONS: map<string, string> := map[
    "cash" := "\U{1F4B5}",
    "card" := "\U{1F4B3}",
    "upi" := "\U{1F4F1}",
    "netbanking" := "\U{1F3E6}",
    "other" := "\U{1F4B0}"]

  /** The values the type and payment selects offer. */
  const TYPE_OPTIONS: seq<string> := ["Food", "Transport", "Entertainment", "Shopping", "Utilities", "Health", "Education", "Other"]
  const PAYMENT_OPTIONS: seq<string> := ["Cash", "Card", "UPI", "NetBanking", "Other"]

  /**
   * The members every object literal inherits from `Object.prototype` whose
   * names are already lower case, so that a lower-cased key can reach them.
   */
  const INHERITED_LOWER_CASE: set<string> := {"constructor", "__proto__"}

  /** `icons[key] || default` with an own-property lookup: the table's icon, or the default. */
  function IconLookup(table: map<string, string>, key: string): (r: string)
    ensures key in table && table[key] != "" ==> r == table[key]
    ensures key !in table ==> r == DEFAULT_ICON
  {
    if key in table then OrElse(table[key], DEFAULT_ICON) else DEFAULT_ICON
  }

  /** `getTypeIcon`, as the table is meant to be read: an empty type or an unknown one shows the default. */
  function TypeIcon(kind: string): (r: string)
    ensures kind == "" ==> r == DEFAULT_ICON
    ensures kind != "" && ToLower(kind) in TYPE_ICONS ==> r == TYPE_ICONS[ToLower(kind)]
    ensures kind != "" && ToLower(kind) !in TYPE_ICONS ==> r == DEFAULT_ICON
  {
    if kind == "" then DEFAULT_ICON else IconLookup(TYPE_ICONS, ToLower(kind))
  }

  /** `getPaymentIcon`, read the same way over the payment table. */
  function PaymentIcon(payment: string): (r: string)
    ensures payment == "" ==> r == DEFAULT_ICON
    ensures payment != "" && ToLower(payment) in PAYMENT_ICONS ==> r == PAYMENT_ICONS[ToLower(payment)]
    ensures payment != "" && ToLower(payment) !in PAYMENT_ICONS ==> r == DEFAULT_ICON
  {
    if payment == "" then DEFAULT_ICON else IconLookup(PAYMENT_ICONS, ToLower(payment))
  }

  /** The lookups ignore ASCII case. */
  lemma IconsIgnoreCase(a: string, b: string)
    requires ToLower(a) == ToLower(b)
    ensures TypeIcon(a) == TypeIcon(b) && PaymentIcon(a) == PaymentIcon(b)
  {
    if a == "" || b == "" {
      assert |a| == |ToLower(a)| == |ToLower(b)| == |b|;
    }
  }

  /** Every type the forms offer has its own icon. */
  lemma OfferedTypesHaveIcons()
    ensures forall i :: 0 <= i < |TYPE_OPTIONS| ==>
      ToLower(TYPE_OPTIONS[i]) in TYPE_ICONS && TypeIcon(TYPE_OPTIONS[i]) == TYPE_ICONS[ToLower(TYPE_OPTIONS[i])]
  {
    assert ToLower("Food") == "food";
    assert ToLower("Transport") == "transport";
    assert ToLower("Entertainment") == "entertainment";
    assert ToLower("Shopping") == "shopping";
    assert ToLower("Utilities") == "utilities";
    assert ToLower("Health") == "health";
    assert ToLower("Education") == "education";
    assert ToLower("Other") == "other";
  }

  /** Every payment method the forms offer has its own icon. */
  lemma OfferedPaymentsHaveIcons()
    ensures forall i :: 0 <= i < |PAYMENT_OPTIONS| ==>
      ToLower(PAYMENT_OPTIONS[i]) in PAYMENT_ICONS && PaymentIcon(PAYMENT_OPTIONS[i]) == PAYMENT_ICONS[ToLower(PAYMENT_OPTIONS[i])]
  {
    assert ToLower("Cash") == "cash";
    assert ToLower("Card") == "card";
    assert ToLower("UPI") == "upi";
    assert ToLower("NetBanking") == "netbanking";
    assert ToLower("Other") == "other";
  }

  /** What `icons[key] || default` yields on a plain object literal: a string, or an inherited member. */
  datatype IconValue = Emoji(text: string) | PrototypeMember(name: string)

  /** `icons[key]` on an object literal, which also finds the members it inherits. */
  function ObjectLookup(table: map<string, string>, key: string): (r: IconValue)
    requires forall k :: k in table ==> k !in INHERITED_LOWER_CASE
    ensures key in table ==> r == Emoji(IconLookup(table, key))
    ensures key in INHERITED_LOWER_CASE ==> r == PrototypeMember(key)
    ensures key !in table && key !in INHERITED_LOWER_CASE ==> r == Emoji(DEFAULT_ICON)
  {
    if key in table then Emoji(IconLookup(table, key))
    else if key in INHERITED_LOWER_CASE then PrototypeMember(key)
    else Emoji(DEFAULT_ICON)
  }

  /** `getTypeIcon` as written. */
  function TypeIconAsWritten(kind: string): (r: IconValue)
    ensures ToLower(kind) !in INHERITED_LOWER_CASE ==> r == Emoji(TypeIcon(kind))
  {
    if kind == "" then Emoji(DEFAULT_ICON) else ObjectLookup(TYPE_ICONS, ToLower(kind))
  }

  /** `getPaymentIcon` as written. */
  function PaymentIconAsWritten(payment: string): (r: IconValue)
    ensures ToLower(payment) !in INHERITED_LOWER_CASE ==> r == Emoji(PaymentIcon(payment))
  {
    if payment == "" then Emoji(DEFAULT_ICON) else ObjectLookup(PAYMENT_ICONS, ToLower(payment))
  }

  /**
   * A type of `Constructor` and a payment method of `__proto__` are looked
   * up on `Object.prototype`: the lookups yield the constructor function and
   * the prototype object instead of an icon.
   */
  lemma InheritedKeysEscapeTheTables()
    ensures TypeIconAsWritten("Constructor") == PrototypeMember("constructor")
    ensures PaymentIconAsWritten("__proto__") == PrototypeMember("__proto__")
    ensures TypeIcon("Constructor") == DEFAULT_ICON && PaymentIcon("__proto__") == DEFAULT_ICON
  {
    assert ToLower("Constructor") == "constructor";
    assert ToLower("__proto__") == "__proto__";
  }

  // Ordering

  /** Newest first: no entry is followed by a strictly newer one. */
  ghost predicate NewestFirst(xs: seq<ApiService.Expense>, timestamp: string -> int) {
    forall i, j :: 0 <= i < j < |xs| ==> timestamp(xs[i].date) >= timestamp(xs[j].date)
  }

  /** Putting an entry at least as new as the head in front keeps the order. */
  lemma ConsNewestFirst(y: ApiService.Expense, r: seq<ApiService.Expense>, timestamp: string -> int)
    requires NewestFirst(r, timestamp)
    requires r != [] ==> timestamp(r[0].date) <= timestamp(y.date)
    ensures NewestFirst([y] + r, timestamp)
  {
    var s := [y] + r;
    forall i, j | 0 <= i < j < |s|
      ensures timestamp(s[i].date) >= timestamp(s[j].date)
    {
      assert s[j] == r[j - 1];
      if i == 0 {
        assert timestamp(r[0].date) >= timestamp(r[j - 1].date);
      } else {
        assert s[i] == r[i - 1];
      }
    }
  }

  /** Dropping the head keeps the order. */
  lemma NewestFirstTail(xs: seq<ApiService.Expense>, timestamp: string -> int)
    requires xs != [] && NewestFirst(xs, timestamp)
    ensures NewestFirst(xs[1..], timestamp)
  {
    var tail := xs[1..];
    forall i, j | 0 <= i < j < |tail|
      ensures timestamp(tail[i].date) >= timestamp(tail[j].date)
    {
      assert tail[i] == xs[i + 1] && tail[j] == xs[j + 1];
    }
  }

  /** Puts `x` before the first entry that is not newer than it. */
  function Insert(x: ApiService.Expense, xs: seq<ApiService.Expense>, timestamp: string -> int): (r: seq<ApiService.Expense>)
    ensures multiset(r) == multiset(xs) + multiset{x}
    ensures NewestFirst(xs, timestamp) ==> NewestFirst(r, timestamp)
    ensures r[0] == x || (xs != [] && r[0] == xs[0])
  {
    if xs == [] then [x]
    else if timestamp(xs[0].date) <= timestamp(x.date) then
      assert NewestFirst(xs, timestamp) ==> NewestFirst([x] + xs, timestamp) by {
        if NewestFirst(xs, timestamp) {
          ConsNewestFirst(x, xs, timestamp);
        }
      }
      [x] + xs
    else
      assert xs == [xs[0]] + xs[1..];
      var rest := Insert(x, xs[1..], timestamp);
      assert NewestFirst(xs, timestamp) ==> NewestFirst([xs[0]] + rest, timestamp) by {
        if NewestFirst(xs, timestamp) {
          NewestFirstTail(xs, timestamp);
          if |xs| > 1 {
            assert xs[1..][0] == xs[1];
          }
          ConsNewestFirst(xs[0], rest, timestamp);
        }
      }
      [xs[0]] + rest
  }

  /**
   * `[...expenses].sort((a, b) => time(b) - time(a))`: a copy holding the
   * same entries, newest first. The argument is a value, so it is not
   * changed.
   */
  function SortNewestFirst(xs: seq<ApiService.Expense>, timestamp: string -> int): (r: seq<ApiService.Expense>)
    ensures multiset(r) == multiset(xs)
    ensures |r| == |xs|
    ensures NewestFirst(r, timestamp)
  {
    if xs == [] then []
    else
      assert xs == [xs[0]] + xs[1..];
      Insert(xs[0], SortNewestFirst(xs[1..], timestamp), timestamp)
  }

  /** The entries with the given timestamp, in order. */
  function SameTime(xs: seq<ApiService.Expense>, t: int, timestamp: string -> int): seq<ApiService.Expense> {
    if xs == [] then []
    else (if timestamp(xs[0].date) == t then [xs[0]] else []) + SameTime(xs[1..], t, timestamp)
  }

  lemma {:induction false} SameTimeInsert(x: ApiService.Expense, xs: seq<ApiService.Expense>, t: int, timestamp: string -> int)
    ensures SameTime(Insert(x, xs, timestamp), t, timestamp)
      == (if timestamp(x.date) == t then [x] else []) + SameTime(xs, t, timestamp)
    decreases |xs|
  {
    if xs == [] {
    } else if timestamp(xs[0].date) <= timestamp(x.date) {
      SameTimeCons(x, xs, t, timestamp);
    } else {
      var rest := Insert(x, xs[1..], timestamp);
      assert Insert(x, xs, timestamp) == [xs[0]] + rest;
      var tail := SameTime(xs[1..], t, timestamp);
      SameTimeInsert(x, xs[1..], t, timestamp);
      SameTimeCons(xs[0], rest, t, timestamp);
      assert xs == [xs[0]] + xs[1..];
      SameTimeCons(xs[0], xs[1..], t, timestamp);
      if timestamp(x.date) == t {
        // xs[0] is strictly newer than x, so it is not at `t`.
        assert SameTime(rest, t, timestamp) == [x] + tail;
        assert SameTime(xs, t, timestamp) == tail;
      } else {
        assert SameTime(rest, t, timestamp) == tail;
      }
    }
  }

  /** The entries at `t` of a list with a given head. */
  lemma SameTimeCons(y: ApiService.Expense, r: seq<ApiService.Expense>, t: int, timestamp: string -> int)
    ensures SameTime([y] + r, t, timestamp) == (if timestamp(y.date) == t then [y] else []) + SameTime(r, t, timestamp)
  {
    assert ([y] + r)[1..] == r;
  }

  /** The sort is stable: entries with equal dates keep their input order. */
  lemma {:induction false} SortIsStable(xs: seq<ApiService.Expense>, t: int, timestamp: string -> int)
    ensures SameTime(SortNewestFirst(xs, timestamp), t, timestamp) == SameTime(xs, t, timestamp)
  {
    if xs != [] {
      SortIsStable(xs[1..], t, timestamp);
      SameTimeInsert(xs[0], SortNewestFirst(xs[1..], timestamp), t, timestamp);
    }
  }

  /** What the list renders. */
  datatype ListView = EmptyState | Rows(rows: seq<ApiService.Expense>)

  /** An empty list shows the empty state; otherwise the rows are the sorted copy. */
  function View(xs: seq<ApiService.Expense>, timestamp: string -> int): (v: ListView)
    ensures v == EmptyState <==> xs == []
    ensures v.Rows? ==> multiset(v.rows) == multiset(xs) && NewestFirst(v.rows, timestamp)
  {
    if |xs| == 0 then EmptyState else Rows(SortNewestFirst(xs, timestamp))
  }
}
