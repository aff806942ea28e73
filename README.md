# ExpMang: a verified model of the expense tracker's core

ExpMang is a personal expense tracker. A Spring backend keeps one budget per
user and that budget's expenses. A React client logs in, shows the budget
and the expense list, and edits both. This project models the parts of it
that carry state or decisions, and proves what they promise:

- **Backend budget ledger** (`ledger.dfy`, `entities.dfy`, `expense_service.dfy`,
  `budget_service.dfy`, `day_format.dfy`).
  - `Budget` is a class with mutable fields. Each expense refers to its budget object.
  - The repositories are a `Store` object holding a map from user to budget, a map from id to expense and two id counters.
  - Every service operation keeps the ledger invariant `Store.Balanced`: each budget's `amountUsed` is the sum of the amounts of the expenses charged to it.
  - A fresh store is balanced. A budget created with `amountUsed` 0 keeps it balanced, which is what the client sends. So the invariant holds after any sequence of operations.
  - Dates are calendar days in the `yyyy-MM-dd` format, with a proved round trip.
- **Bearer-token filter** (`jwt_filter.dfy`). It parses `Authorization: Bearer <token>` (section 2.1 of RFC 6750). It authenticates only when no authentication exists yet and, unless a service call throws, continues the chain exactly once. The JWT service and the user lookup are parameters.
- **Client session store** (`http.dfy`, `api_service.dfy`, `legacy_api.dfy`, `auth_header.dfy`).
  - The browser's `localStorage` is a `map<string, string>` field.
  - It covers login with its `"fail"` sentinel, logout, the 401 interceptor and the request interceptor.
  - `handleError` sorts errors three ways, and `getBudget` maps a 404 to `null`.
  - This is modelled for both the current `apiService.ts` and the older `api.ts`.
- **Route gate** (`app.dfy`). It is a pure function of the path and the authentication flag, plus the app's two flags.
- **Dashboard state machine** (`dashboard.dfy`).
  - The state is a budget option, an expense list, the loading and error flags and the modal flags.
  - The transitions are append, replace-by-id, filter-by-id and clear.
  - Destructive actions are guarded by the confirmation answer.
  - The budget is refreshed only by a non-null re-fetch.
  - A list entry is an expense or a blank: the empty body the backend sends for a mutation it cannot carry out is stored as the client receives it.
- **Form validators** (`strings.dfy`, `email_pattern.dfy`, `field_rules.dfy`, `register.dfy`, `login.dfy`, `add_expense_modal.dfy`).
  - The rules are: JavaScript `trim()` emptiness, a minimum password length, and an unanchored `\S+@\S+\.\S+` search.
  - The unanchored search is decided by a terminating function, proved equal to its existential definition.
  - Each validator's error dictionary is empty iff the form is valid. It holds each field's message exactly when that field's rule fails.
- **Display and edit helpers** (`expense_list.dfy`, `budget_card.dfy`).
  - The newest-first sort is proved a sorted permutation, and stable.
  - The icon lookup is case-insensitive with a default.
  - The date prefix before `'T'`.
  - The budget card's remaining and over-budget values and its edit state.

Network replies, `window.confirm` answers, the current time and date parsing
are inputs to the model. Each operation that waits on a request receives
that request's outcome as a parameter: a success value, an HTTP error with
status and body, "no response", or a local error.

Where the design description and the code disagree, the model follows the
code:

- The backend never answers 404 for a missing budget. `BudgetController.getBudget` returns `null`, which is a 200 with an empty body. `ApiService.Client.GetBudget` yields "no budget" for both an empty success body and a 404.
- The backend answers a budget update without a budget, an expense add without a budget, and an update of an unknown expense with `null`, again a 200 with an empty body. The dashboard stores that reply: the budget becomes empty, and the expense list gains a blank entry that the list cannot draw. `Dashboard.DashboardState` takes these replies as `Option` values.
- A failed budget re-fetch after a successful expense change is not swallowed. The re-fetch sits in the same `try` as the mutation, so its failure reaches the handler's `alert`. The expense list has already been updated by then.
- The e-mail "required" rule tests the trimmed e-mail, as the code does, so an all-blank e-mail is "required" rather than "invalid".

## Model

| member | source | states |
|---|---|---|
| Entities.Budget.constructor | src/main/java/com/example/ExpMang/model/Budget.java:10-19 | a budget holds an id, two real calendar days, two 32-bit amounts and its owner |
| Entities.Budget.SetAmount | src/main/java/com/example/ExpMang/model/Budget.java:45-51 | the amount read back is the last one set; nothing else changes |
| Entities.Budget.SetAmountUsed | src/main/java/com/example/ExpMang/model/Budget.java:53-59 | `amountUsed` read back is the last value set; nothing else changes |
| Entities.Budget.SetStartDate | src/main/java/com/example/ExpMang/model/Budget.java:29-35 | the start date is replaced; nothing else changes |
| Entities.Budget.SetEndDate | src/main/java/com/example/ExpMang/model/Budget.java:37-43 | the end date is replaced; nothing else changes |
| Entities.Budget.SetUser | src/main/java/com/example/ExpMang/model/Budget.java:61-67 | the owner is replaced; nothing else changes |
| Entities.Budget.AddExpense | src/main/java/com/example/ExpMang/model/Budget.java:77-79 | `amountUsed` grows by exactly the expense amount; amount and dates are unchanged |
| DayFormat.Format | src/main/java/com/example/ExpMang/model/Budget.java:14-17 | a valid day serialises to ten characters `yyyy-MM-dd`, digits with dashes at positions 4 and 7 |
| DayFormat.Parse | src/main/java/com/example/ExpMang/model/Budget.java:14-17 | the model reads dates strictly: a parsed day is a real proleptic Gregorian calendar day and its text is exactly `dddd-dd-dd`; anything else is rejected |
| DayFormat.ParseFormat | src/main/java/com/example/ExpMang/model/Budget.java:14-17 | parsing a formatted day gives that day back |
| DayFormat.FormatParse | src/main/java/com/example/ExpMang/model/Budget.java:14-17 | for the strict reader, formatting a parsed text gives that text back |
| Ledger.SpentUnreferenced | src/main/java/com/example/ExpMang/service/BudgetService.java:19-22 | a budget no expense refers to has spent nothing, so a new budget starting at 0 is balanced |
| Ledger.SpentAfterInsert | src/main/java/com/example/ExpMang/service/ExpenseService.java:22-31 | saving a new expense adds its amount to its budget's sum and leaves every other budget's sum unchanged |
| Ledger.SpentAfterReplace | src/main/java/com/example/ExpMang/service/ExpenseService.java:41-56 | replacing an expense changes its budget's sum by new minus previous amount and leaves others unchanged |
| Ledger.SpentAfterRemove | src/main/java/com/example/ExpMang/service/ExpenseService.java:58-66 | removing an expense subtracts its amount from its budget's sum only |
| Ledger.WithoutBudget | src/main/java/com/example/ExpMang/model/Budget.java:84-85 | the cascade keeps exactly the expenses that do not refer to the deleted budget |
| Ledger.SpentAfterCascade | src/main/java/com/example/ExpMang/model/Budget.java:84-85 | the cascade leaves every other budget's sum unchanged |
| ExpenseService.AddExpense | src/main/java/com/example/ExpMang/service/ExpenseService.java:22-31 | with a budget, the expense is stored under a fresh id and linked to that budget, and `amountUsed` grows by its amount, the only budget field written; without one the result is null and nothing changes; the ledger stays balanced |
| ExpenseService.AllExpenses | src/main/java/com/example/ExpMang/service/ExpenseService.java:33-35 | exactly the stored expenses whose budget belongs to the user |
| ExpenseService.GetExpenseById | src/main/java/com/example/ExpMang/service/ExpenseService.java:37-39 | null iff the id is absent, otherwise the stored expense with that id |
| ExpenseService.UpdateExpense | src/main/java/com/example/ExpMang/service/ExpenseService.java:41-56 | `amountUsed` becomes old minus previous plus new amount, the only budget field written; only the five fields are copied, and the id and budget link are kept; an unknown id returns null and changes nothing; the ledger stays balanced |
| ExpenseService.DeleteExpense | src/main/java/com/example/ExpMang/service/ExpenseService.java:58-66 | the expense is removed and its budget's `amountUsed` drops by its amount, the only budget field written; an unknown id is a no-op; the ledger stays balanced |
| BudgetService.CreateBudget | src/main/java/com/example/ExpMang/service/BudgetService.java:19-22 | the saved budget is owned by the caller, takes the input's fields and the next id, and is stored without checking for an existing one |
| BudgetService.GetBudget | src/main/java/com/example/ExpMang/service/BudgetService.java:24-26 | the user's budget, or null iff the user has none |
| BudgetService.UpdateBudget | src/main/java/com/example/ExpMang/service/BudgetService.java:28-37 | only amount, start and end date are overwritten; `amountUsed`, id and owner are kept; with no budget the result is null and nothing changes |
| BudgetService.DeleteBudget | src/main/java/com/example/ExpMang/service/BudgetService.java:39-46 | the user's budget and every expense charged to it are removed; with no budget it is a no-op; the ledger stays balanced |
| JwtFilter.BearerToken | src/main/java/com/example/ExpMang/config/JwtFilter.java:42-43 | a token exists iff the header is present and starts with `Bearer `, and it is the header minus that prefix |
| JwtFilter.BearerRoundTrip | src/main/java/com/example/ExpMang/config/JwtFilter.java:42-43 | the token of `Bearer ` plus a token is that token |
| JwtFilter.SecurityContext.DoFilterInternal | src/main/java/com/example/ExpMang/config/JwtFilter.java:36-68 | authentication is set only when a token gives a user name, none is set yet, and the token validates; an existing one is never overwritten; the filter ends in an error iff a service call on its path throws, and otherwise the chain continues exactly once |
| AuthHeader.InterceptorFeedsFilter | frontend-app/src/services/apiService.ts:64-70 | the header the client's interceptor adds carries the stored token back to the filter unchanged |
| ApiService.HandleError | frontend-app/src/services/apiService.ts:233-250 | with a response: its status and its message, else its body, else the default; with only a request: status 0 and the network message; otherwise status 0 and the error's message or the default |
| ApiService.AfterRejection | frontend-app/src/services/apiService.ts:78-88 | a 401 removes both `authToken` and `userName`; any other rejection leaves storage unchanged |
| ApiService.CreateBudgetPayload | frontend-app/src/services/apiService.ts:130-135 | the payload keeps the dates and amount and always has `amountUsed` 0, whatever the input says |
| ApiService.Client.IsAuthenticated | frontend-app/src/services/apiService.ts:228-230 | true iff a non-empty `authToken` is stored |
| ApiService.Client.WithAuthorization | frontend-app/src/services/apiService.ts:64-70 | `Authorization` is `Bearer ` plus the token iff a non-empty token is stored; other headers are kept |
| ApiService.Client.ClearAuth | frontend-app/src/services/apiService.ts:123-126 | storage loses `authToken` and `userName` and nothing else |
| ApiService.Client.Logout | frontend-app/src/services/apiService.ts:119-121 | the same effect as clearing the session |
| ApiService.Client.OnResponseError | frontend-app/src/services/apiService.ts:78-88 | a 401 clears both keys; any other error leaves storage alone |
| ApiService.Client.Call | frontend-app/src/services/apiService.ts:63-88 | a request carries the authorised headers; a success passes through; a failure is normalised and the 401 rule applied |
| ApiService.Client.Login | frontend-app/src/services/apiService.ts:93-108 | the token and user name are stored iff the reply is a non-empty token other than `fail`; such a token is rejected as `Invalid credentials` with status 0 and storage unchanged |
| ApiService.Client.Register | frontend-app/src/services/apiService.ts:110-117 | the created user is passed through; a failure is normalised |
| ApiService.Client.CreateBudget | frontend-app/src/services/apiService.ts:130-141 | the posted body has `amountUsed` 0; the reply is passed through or normalised |
| ApiService.Client.GetBudget | frontend-app/src/services/apiService.ts:143-153 | a 404 becomes no budget; every other failure is normalised and thrown |
| LegacyApi.HandleError | frontend-app/src/services/api.ts:165-185 | the same three-way status split, with the message taken only from `data.message` or a default |
| LegacyApi.RegisterOutcome | frontend-app/src/services/api.ts:102-109 | success iff the request succeeded; a failure carries `data.message` or `Registration failed.` |
| LegacyApi.LegacyClient.IsAuthenticated | frontend-app/src/services/api.ts:159-162 | true iff a non-empty token is stored |
| LegacyApi.LegacyClient.OnResponseError | frontend-app/src/services/api.ts:64-72 | a 401 removes `authToken` and `user` but keeps `userName` |
| LegacyApi.LegacyClient.Login | frontend-app/src/services/api.ts:80-100 | the token and the user are stored iff the reply's token is truthy; the reply is returned either way |
| LegacyApi.LegacyClient.Register | frontend-app/src/services/api.ts:102-109 | it never throws; the outcome is the mapped reply |
| LegacyApi.LegacyClient.Logout | frontend-app/src/services/api.ts:138-148 | `authToken` and `user` are removed whether or not the request fails |
| App.Route | frontend-app/src/components/App.tsx:44-83 | `/login` and `/register` show their forms iff unauthenticated; `/` shows the dashboard iff authenticated; every other case redirects to `/` or `/login` by the flag |
| App.RedirectSettles | frontend-app/src/components/App.tsx:44-83 | following a redirect lands on a screen that is not a redirect |
| App.AppState.constructor | frontend-app/src/components/App.tsx:10-11 | the app starts unauthenticated and loading |
| App.AppState.Render | frontend-app/src/components/App.tsx:32-39 | while loading the loader is shown, otherwise the route's screen |
| App.AppState.CheckAuthStatus | frontend-app/src/components/App.tsx:14-18 | the flag becomes whether a non-empty token is stored, and loading ends |
| App.AppState.HandleLogin | frontend-app/src/components/App.tsx:23-25 | the flag becomes true |
| App.AppState.HandleLogout | frontend-app/src/components/App.tsx:27-30 | storage loses both session keys and the flag becomes false |
| Dashboard.ReplaceById | frontend-app/src/pages/Dashboard.tsx:93 | the length is kept; each entry with the id becomes the update and every other one, blanks included, stays in place |
| Dashboard.RemoveById | frontend-app/src/pages/Dashboard.tsx:108 | an entry is kept iff it is in the list and does not have the id (a blank has none); a list without the id is unchanged |
| Dashboard.DrawableAfterEdits | frontend-app/src/pages/Dashboard.tsx:90-108 | filtering, and replacing with an expense, keep a list of expenses free of blanks |
| Dashboard.DrawableAfterAppend | frontend-app/src/pages/Dashboard.tsx:80 | an appended entry keeps the list free of blanks iff it is an expense |
| Dashboard.RemoveByIdAppend | frontend-app/src/pages/Dashboard.tsx:108 | filtering distributes over concatenation, so the survivors keep their order |
| Dashboard.ReplaceByIdIdempotent | frontend-app/src/pages/Dashboard.tsx:93 | replacing twice with the same update is replacing once |
| Dashboard.ReplaceAfterRemove | frontend-app/src/pages/Dashboard.tsx:93 | replacing an id that has been filtered out changes nothing |
| Dashboard.Refreshed | frontend-app/src/pages/Dashboard.tsx:83-84 | the budget is replaced only by a non-null successful re-fetch and is never cleared |
| Dashboard.DashboardState.constructor | frontend-app/src/pages/Dashboard.tsx:16-21 | no budget, no expenses, loading, no error, both modals closed |
| Dashboard.DashboardState.BeginLoad | frontend-app/src/pages/Dashboard.tsx:30-31 | loading is set and the error cleared before the fetch |
| Dashboard.DashboardState.LoadData | frontend-app/src/pages/Dashboard.tsx:28-43 | on success budget and expenses come from the two fetches, with no blank entry; on failure neither changes and the error holds the message or `Failed to load data`; loading ends on both paths |
| Dashboard.DashboardState.HandleAddBudget | frontend-app/src/pages/Dashboard.tsx:45-53 | the budget is replaced and the modal closed only on success; a failure alerts and changes nothing |
| Dashboard.DashboardState.HandleUpdateBudget | frontend-app/src/pages/Dashboard.tsx:55-62 | on success the budget becomes the server's reply, and an empty reply leaves no budget; a failure alerts and changes nothing |
| Dashboard.DashboardState.HandleDeleteBudget | frontend-app/src/pages/Dashboard.tsx:64-75 | a declined confirmation sends nothing and changes nothing; success clears the budget and the expenses; failure alerts only |
| Dashboard.DashboardState.AfterExpenseChange | frontend-app/src/pages/Dashboard.tsx:82-87 | the re-fetch replaces the budget only when non-null; a failed re-fetch alerts |
| Dashboard.DashboardState.HandleAddExpense | frontend-app/src/pages/Dashboard.tsx:77-88 | the server's reply is appended at the end and the modal closed, then the budget is refreshed; the list stays free of blanks iff it was and the reply is an expense; a failure alerts and changes nothing |
| Dashboard.DashboardState.HandleUpdateExpense | frontend-app/src/pages/Dashboard.tsx:90-100 | entries with the id are replaced by the server's reply, others kept in place, then the budget is refreshed; a non-empty reply keeps a list free of blanks; a failure alerts and changes nothing |
| Dashboard.DashboardState.HandleDeleteExpense | frontend-app/src/pages/Dashboard.tsx:102-115 | a declined confirmation changes nothing; success removes exactly the elements with the id, keeping the order of the rest and adding no blank, then refreshes the budget |
| Dashboard.DashboardState.DismissError | frontend-app/src/pages/Dashboard.tsx:152 | the error banner is cleared and nothing else changes |
| Strings.TrimEmptyIffBlank | frontend-app/src/components/Register.tsx:30 | `trim()` gives the empty string iff every character is JavaScript whitespace |
| Strings.BeforeFirst | frontend-app/src/components/ExpenseList.tsx:19 | the prefix before the first `'T'`, and the whole text when there is none |
| EmailPattern.MatchesAtSound | frontend-app/src/components/Register.tsx:35 | the executable test at a start position agrees with the pattern's definition there |
| EmailPattern.MatchFrom | frontend-app/src/components/Register.tsx:35 | true iff some match of the pattern starts at or after the position |
| EmailPattern.HasEmailMatch | frontend-app/src/components/Register.tsx:35 | true iff some substring matches `\S+@\S+\.\S+` |
| FieldRules.UserNameError | frontend-app/src/components/Register.tsx:30-32 | `Username is required` iff the name is blank after trimming |
| FieldRules.EmailError | frontend-app/src/components/Register.tsx:33-37 | `required` iff blank; otherwise `invalid` iff there is no pattern match; never both |
| FieldRules.PasswordError | frontend-app/src/components/Register.tsx:38-42 | `required` iff blank; otherwise the length error iff the untrimmed length is under six |
| FieldRules.PaddedPasswordAccepted | frontend-app/src/components/Register.tsx:38-42 | the length rule counts surrounding spaces: a single character padded to six is accepted |
| FieldRules.ClearedFor | frontend-app/src/components/Register.tsx:23-25 | only the edited field's entry is blanked, only if it was shown; every other entry is kept |
| Register.WithField | frontend-app/src/components/Register.tsx:22 | only the named field changes |
| Register.EmptyIffValid | frontend-app/src/components/Register.tsx:44 | a dictionary that holds exactly the failing rules is empty iff the form is valid |
| Register.RegisterForm.constructor | frontend-app/src/components/Register.tsx:8-16 | empty fields, no errors, not loading, no messages |
| Register.RegisterForm.HandleInputChange | frontend-app/src/components/Register.tsx:20-26 | the named field takes the value and only its error is cleared |
| Register.RegisterForm.ValidateForm | frontend-app/src/components/Register.tsx:28-45 | the dictionary is rebuilt with each field's message exactly when its rule fails; the result is true iff the form is valid iff the dictionary is empty |
| Register.RegisterForm.HandleSubmit | frontend-app/src/components/Register.tsx:47-63 | an invalid form sends nothing; success shows the success text and resets all three fields; failure shows the message or `Registration failed.`; loading ends |
| Login.WithField | frontend-app/src/components/Login.tsx:23-26 | only the named field changes |
| Login.EmptyIffValid | frontend-app/src/components/Login.tsx:50 | a dictionary that holds exactly the failing rules is empty iff the form is valid |
| Login.LoginFailure | frontend-app/src/services/apiService.ts:98-107 | the error `login` throws: the normalised failure, or `Invalid credentials` for a rejected token |
| Login.LoginForm.constructor | frontend-app/src/components/Login.tsx:13-19 | empty fields, no errors, not loading |
| Login.LoginForm.HandleInputChange | frontend-app/src/components/Login.tsx:21-34 | the named field takes the value and only its error is cleared |
| Login.LoginForm.ValidateForm | frontend-app/src/components/Login.tsx:36-51 | the user name and password rules as in registration, with no e-mail rule; true iff valid iff empty |
| Login.LoginForm.HandleSubmit | frontend-app/src/components/Login.tsx:53-72 | logged in iff valid and the token is accepted; on a valid form the storage changes exactly as `login` changes it (session stored, kept, or cleared on 401); a failure replaces all errors with one `general` entry holding the message or the default; loading ends |
| AddExpenseModal.DefaultForm | frontend-app/src/components/AddExpenseModal.tsx:11-17 | amount 0, today's date, empty description, type `Other`, payment `Cash` |
| AddExpenseModal.ExpenseRule | frontend-app/src/components/AddExpenseModal.tsx:21-31 | the amount, description and date errors fire iff amount ≤ 0, the description is blank, or the date is empty |
| AddExpenseModal.DefaultFormInvalid | frontend-app/src/components/AddExpenseModal.tsx:11-25 | the default form fails the amount rule |
| AddExpenseModal.EmptyIffValid | frontend-app/src/components/AddExpenseModal.tsx:33 | a dictionary that holds exactly the failing rules is empty iff the form is valid |
| AddExpenseModal.ModalForm.constructor | frontend-app/src/components/AddExpenseModal.tsx:11-19 | the defaults and no errors |
| AddExpenseModal.ModalForm.Validate | frontend-app/src/components/AddExpenseModal.tsx:21-34 | the dictionary is rebuilt from scratch; true iff valid iff empty |
| AddExpenseModal.ModalForm.HandleSubmit | frontend-app/src/components/AddExpenseModal.tsx:36-41 | the form is handed on iff it is valid |
| ExpenseList.DraftOf | frontend-app/src/components/ExpenseList.tsx:17-23 | the date is the prefix before the first `'T'`; the other four fields are copied |
| ExpenseList.EditState.constructor | frontend-app/src/components/ExpenseList.tsx:12-13 | nothing is being edited and the draft is empty |
| ExpenseList.EditState.StartEdit | frontend-app/src/components/ExpenseList.tsx:15-24 | the edited id is the expense's and the draft is its copy |
| ExpenseList.EditState.HandleSave | frontend-app/src/components/ExpenseList.tsx:26-29 | the id and draft are sent; editing ends but the draft is kept |
| ExpenseList.EditState.HandleCancel | frontend-app/src/components/ExpenseList.tsx:31-34 | editing ends and the draft is emptied |
| ExpenseList.TypeIcon | frontend-app/src/components/ExpenseList.tsx:36-49 | an empty type gives the default; otherwise the lower-cased key's emoji from the 8-entry table, else the default |
| ExpenseList.PaymentIcon | frontend-app/src/components/ExpenseList.tsx:51-61 | the same shape over the 5-entry table |
| ExpenseList.IconsIgnoreCase | frontend-app/src/components/ExpenseList.tsx:48 | two keys that lower-case alike get the same icon |
| ExpenseList.OfferedTypesHaveIcons | frontend-app/src/components/AddExpenseModal.tsx:94-101 | every type the expense form offers has its own icon, not the default |
| ExpenseList.OfferedPaymentsHaveIcons | frontend-app/src/components/AddExpenseModal.tsx:111-115 | every payment method the expense form offers has its own icon, not the default |
| ExpenseList.ObjectLookup | frontend-app/src/components/ExpenseList.tsx:48 | a lookup on an object literal finds the table's entries and the inherited members of `Object.prototype` |
| ExpenseList.TypeIconAsWritten | frontend-app/src/components/ExpenseList.tsx:36-49 | as written; it agrees with `TypeIcon` on every key that is not an inherited member |
| ExpenseList.PaymentIconAsWritten | frontend-app/src/components/ExpenseList.tsx:51-61 | as written; it agrees with `PaymentIcon` on every key that is not an inherited member |
| ExpenseList.InheritedKeysEscapeTheTables | frontend-app/src/components/ExpenseList.tsx:48 | the type `Constructor` and the payment method `__proto__` yield a prototype member, not an emoji |
| ExpenseList.SortNewestFirst | frontend-app/src/components/ExpenseList.tsx:74-76 | a permutation of the input, ordered newest date first |
| ExpenseList.SortIsStable | frontend-app/src/components/ExpenseList.tsx:74-76 | expenses with the same date keep their input order |
| ExpenseList.View | frontend-app/src/components/ExpenseList.tsx:63-76 | the empty state iff the list is empty, otherwise the sorted rows |
| BudgetCard.Remaining | frontend-app/src/components/BudgetCard.tsx:20 | the amount minus what is used |
| BudgetCard.IsOverBudget | frontend-app/src/components/BudgetCard.tsx:21 | over budget iff more is used than budgeted |
| BudgetCard.PercentageUsed | frontend-app/src/components/BudgetCard.tsx:19 | 0 when the amount is not positive, so there is no division by zero; otherwise used as a share of 100 |
| BudgetCard.BarWidth | frontend-app/src/components/BudgetCard.tsx:122 | the percentage capped at 100 |
| BudgetCard.OverBudgetIffOverFull | frontend-app/src/components/BudgetCard.tsx:19-21 | with a positive amount, over budget iff the percentage exceeds 100 |
| BudgetCard.BarWidthInRange | frontend-app/src/components/BudgetCard.tsx:122 | with a positive amount and a non-negative `amountUsed`, the bar width lies between 0 and 100 |
| BudgetCard.EditOf | frontend-app/src/components/BudgetCard.tsx:13-17 | the draft holds the budget's amount and dates |
| BudgetCard.CardState.constructor | frontend-app/src/components/BudgetCard.tsx:12-17 | not editing, with a draft of the initial budget |
| BudgetCard.CardState.ReceiveBudget | frontend-app/src/components/BudgetCard.tsx:11-17 | a new budget prop changes the budget but not the draft |
| BudgetCard.CardState.StartEditing | frontend-app/src/components/BudgetCard.tsx:44 | editing starts with the draft as it was |
| BudgetCard.CardState.SetAmount | frontend-app/src/components/BudgetCard.tsx:73 | only the draft amount changes |
| BudgetCard.CardState.SetStartDate | frontend-app/src/components/BudgetCard.tsx:84 | only the draft start date changes |
| BudgetCard.CardState.SetEndDate | frontend-app/src/components/BudgetCard.tsx:92 | only the draft end date changes |
| BudgetCard.CardState.HandleSave | frontend-app/src/components/BudgetCard.tsx:23-26 | the draft is sent and editing ends |
| BudgetCard.CardState.HandleCancel | frontend-app/src/components/BudgetCard.tsx:28-35 | the draft is restored from the budget and editing ends |

## Left out

- HTTP transport is not modelled: axios, the 10-second timeout, `window.location.href` redirects and `alert` pop-ups. Request outcomes are parameters, and alerts are returned values.
- `window.confirm` answers are boolean parameters.
- `Promise.all` in `loadData` is one atomic step that yields both results or one failure.
- JSX rendering, animation, CSS classes and focus tracking are not modelled.
- React state updates happen at once. Batching and stale closures over `expenses` are not modelled.
- `setTimeout` before navigating to `/login` after registration, and `navigate('/')` after login, are not modelled.
- Floating point is not modelled. `PercentageUsed` is an exact real, and `toFixed`, `toLocaleString` and `toLocaleDateString` are left out.
- `Number(e.target.value)` parsing, including NaN, is not modelled.
- `AddExpenseModal.ExpenseForm` keeps the amount as a real number. Its conversion to the backend's `int` is not modelled.
- `new Date(...)` parsing is the `timestamp` parameter of the sort. An invalid date, which would make the comparator NaN, is not modelled.
- `ExpenseList.SortNewestFirst` is a stable insertion sort. Engines that sort differently agree on the order except among equal dates; ECMAScript has required a stable sort since 2019.
- `Strings.ToLower` maps only ASCII letters. Unicode case mapping is not modelled.
- `FieldRules.PasswordError` counts characters (code points). JavaScript's `length` counts UTF-16 units, so the two differ for characters outside the Basic Multilingual Plane.
- `ExpenseList.EditState.StartEdit`: an expense without an id gives an `editingId` of `undefined` in the source. The model does not distinguish that from "not editing".
- The open/close setters of the two modals, and the input handlers of the expense modal and the expense edit form, are not modelled. They are single field writes.
- `App.Route` matches exact path strings. react-router's trailing-slash and case rules are not modelled.
- `ExpenseService.AddExpense` does not model Java `int` wrap-around. It requires that the new `amountUsed` fits in 32 bits.
- `ExpenseService.UpdateExpense` does not model Java `int` wrap-around. It requires that the new `amountUsed` fits in 32 bits.
- `ExpenseService.DeleteExpense` does not model Java `int` wrap-around. It requires that the new `amountUsed` fits in 32 bits.
- `Entities.Budget.AddExpense` does not model Java `int` wrap-around. It requires that the sum fits in 32 bits.
- Stored dates (`Entities.Budget` start and end, `Entities.ExpenseFields.date`, `BudgetService.BudgetInput`) are `DayFormat.Day` values: real days with years 0 to 9999. A `null` date and years outside that range are not modelled.
- The row render of a blank list entry, which reads `expense.amount` at `ExpenseList.tsx:174`, is not modelled; `Dashboard.AllPresent` says when the list has none.
- `DayFormat.Parse` reads dates strictly. Jackson's `@JsonFormat` parser is lenient: it rolls over out-of-range fields ("2024-02-30" becomes 2024-03-01), ignores trailing text, trims spaces, reads "" as a null date and uses the Julian calendar before 1582-10-15. None of that is modelled.
- `DayFormat.FormatParse` holds for the strict reader only. Under the lenient parser a rolled-over or padded text does not come back unchanged.
- `ExpenseService.AddExpense` stores the expense under the next id from the counter. An id sent in the request body, which JPA would merge, is not modelled.
- `BudgetService.CreateBudget` replaces the user's map entry when a budget already exists. Absent a unique constraint on the budget's `user_id`, the database would hold a second row, and later `findByUser` calls would then fail as non-unique; with one, the second save fails.
- `BudgetService.DeleteBudget` does not model the `User` entity. Clearing `user.budget` is the removal of the user's entry from the budget map.
- The JWT service (`extractUserName`, `validateToken`) and `UserService.loadUserByUsername` are parameters of `DoFilterInternal`. `SecurityContextHolder` is one field. Request details are not modelled.
- The controllers, the repositories as interfaces, `BudgetSerivce.java` and `IdGenerator.java` are not part of this model. The id counters of `Ledger.Store` stand for the generated ids.
- `User.java` and `Expense.java` are used only as shapes.
- `Home.tsx` is not part of this model.
- The request interceptor of `api.ts` is the same as the one in `apiService.ts`, so only the latter is modelled.
- `api.ts` `deleteExpense`, `getUserProfile` and `updateUserProfile` are plain requests whose outcome is `HandleError`'s, so they are not modelled separately.
- `getStoredUser` in `api.ts` is not modelled, because `JSON.parse` is foreign. `registerUser` only forwards to `register`.
- `apiService.ts` `updateBudget`, `deleteBudget`, `addExpense`, `getAllExpenses`, `getExpenseById`, `updateExpense` and `deleteExpense` behave exactly like `ApiService.Client.Call`. Their outcomes are the inputs of the dashboard handlers.

## Findings

| source | as written | input that shows it | evidently intended | confidence | as-written member | corrected member |
|---|---|---|---|---|---|---|
| frontend-app/src/components/ExpenseList.tsx:48 | `icons[type.toLowerCase()] \|\| '💰'` indexes a plain object literal, so keys inherited from `Object.prototype` are found | an expense whose type is `Constructor` gets the `Object` function instead of an emoji | unknown types fall back to `💰` | not executed | ExpenseList.TypeIconAsWritten | ExpenseList.TypeIcon |
| frontend-app/src/components/ExpenseList.tsx:60 | `icons[method.toLowerCase()] \|\| '💰'` has the same lookup | the payment method `__proto__` gets `Object.prototype`, an object React cannot render | unknown payment methods fall back to `💰` | not executed | ExpenseList.PaymentIconAsWritten | ExpenseList.PaymentIcon |
