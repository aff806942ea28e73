/**
 * `apiService.ts`: the client's session store in `localStorage`, the two
 * axios interceptors, the normalisation of errors and the budget and expense
 * calls the dashboard uses.
 */
module ApiService {
  import opened Wrappers
  import opened Strings
  import opened Http

  const AUTH_TOKEN := "authToken"
  const USER_NAME := "userName"
  const FAIL_TOKEN := "fail"

  /** The client's view of a budget (`interface Budget`). */
  datatype Budget = Budget(budgetId: Option<int>, startDate: string, endDate: string, amount: int, amountUsed: int)

  /** The client's view of an expense (`interface Expense`). */
  datatype Expense = Expense(
    expenseId: Option<int>,
    amount: int,
    date: string,
    description: string,
    kind: string,
    paymentMethod: string)

  datatype User = User(userId: int, userName: string, email: string)
  datatype Credentials = Credentials(userName: string, password: string)
  datatype RegisterData = RegisterData(userName: string, email: string, password: string)

  /** What `createBudget` is given: the form's fields, possibly with a stray `amountUsed`. */
  datatype BudgetDraft = BudgetDraft(startDate: string, endDate: string, amount: int, amountUsed: Option<int>)

  /** What `createBudget` posts. */
  datatype BudgetPayload = BudgetPayload(startDate: string, endDate: string, amount: int, amountUsed: int)

  /**
   * The `message` of an `ApiError`: a string, or — when the server sent a
   * JSON body without a truthy `message` — that body object itself.
   */
  datatype ErrorMessage = Text(text: string) | BodyObject(body: Body)

  datatype ApiError = ApiError(message: ErrorMessage, status: int)

  /** JavaScript truthiness of a message: only the empty string is falsy. */
  predicate Truthy(m: ErrorMessage) {
    m.BodyObject? || m.text != ""
  }

  /** `m || fallback`. */
  function MessageOr(m: ErrorMessage, fallback: string): (r: ErrorMessage)
    ensures Truthy(m) ==> r == m
    ensures !Truthy(m) ==> r == Text(fallback)
  {
    if Truthy(m) then m else Text(fallback)
  }

  /**
   * `handleError`: a response gives its status and the body's message, the
   * body, or a default; a request without a response gives status 0 and
   * the network message; anything else gives status 0 and its own message
   * or a default. The message is never falsy.
   */
  function HandleError(e: AxiosError): (r: ApiError)
    ensures r.status == (if e.HttpError? then e.status else 0)
    ensures RealStatus(e) ==> (r.status == 0 <==> !e.HttpError?)
    ensures e.NoResponse? ==> r.message == Text("Network error. Please check your connection.")
    ensures e.Unsent? ==> r.message == Text(OrElse(e.message, "An unexpected error occurred"))
    ensures e.HttpError? && e.body.JsonBody? ==>
      r.message == (if e.body.message.Some? && e.body.message.value != "" then Text(e.body.message.value) else BodyObject(e.body))
    ensures e.HttpError? && e.body.TextBody? ==> r.message == Text(OrElse(e.body.text, "An error occurred"))
    ensures Truthy(r.message)
  {
    match e
    case HttpError(status, body) =>
      var message :=
        match body
        case JsonBody(m) => if m.Some? && m.value != "" then Text(m.value) else BodyObject(body)
        case TextBody(t) => Text(OrElse(t, "An error occurred"));
      ApiError(message, status)
    case NoResponse => ApiError(Text("Network error. Please check your connection."), 0)
    case Unsent(m) => ApiError(Text(OrElse(m, "An unexpected error occurred")), 0)
  }

  /** `login`'s test of the returned token: present and not the server's `fail` sentinel. */
  predicate AcceptedToken(token: string) {
    token != "" && token != FAIL_TOKEN
  }

  /** The storage left after a rejected call: a 401 clears both session keys. */
  function AfterRejection(storage: map<string, string>, e: AxiosError): (r: map<string, string>)
    ensures IsUnauthorized(e) ==> AUTH_TOKEN !in r && USER_NAME !in r
    ensures IsUnauthorized(e) ==> forall k :: k in storage && k != AUTH_TOKEN && k != USER_NAME ==> k in r && r[k] == storage[k]
    ensures !IsUnauthorized(e) ==> r == storage
  {
    if IsUnauthorized(e) then storage - {AUTH_TOKEN, USER_NAME} else storage
  }

  /** `createBudget`'s request body: the input's fields with `amountUsed` forced to 0. */
  function CreateBudgetPayload(draft: BudgetDraft): (p: BudgetPayload)
    ensures p.amountUsed == 0
    ensures p.startDate == draft.startDate && p.endDate == draft.endDate && p.amount == draft.amount
  {
    BudgetPayload(draft.startDate, draft.endDate, draft.amount, 0)
  }

  const DEFAULT_HEADERS: map<string, string> := map["Content-Type" := "application/json"]

  /** The shared axios instance, reduced to what it holds: the `localStorage` keys it reads and writes. */
  class Client {
    var storage: map<string, string>

    /** A client over whatever an earlier session left in `localStorage`. */
    constructor (persisted: map<string, string>)
      ensures storage == persisted
    {
      storage := persisted;
    }

    function StoredToken(): Option<string>
      reads this
    {
      Get(storage, AUTH_TOKEN)
    }

    function StoredUserName(): Option<string>
      reads this
    {
      Get(storage, USER_NAME)
    }

    /** `!!getStoredToken()`. */
    predicate IsAuthenticated()
      reads this
      ensures IsAuthenticated() <==> AUTH_TOKEN in storage && storage[AUTH_TOKEN] != ""
    {
      var token := StoredToken();
      token.Some? && token.value != ""
    }

    /** The request interceptor: adds `Bearer <token>` exactly when a non-empty token is stored. */
    function WithAuthorization(headers: map<string, string>): (r: map<string, string>)
      reads this
      ensures IsAuthenticated() ==> r == headers["Authorization" := "Bearer " + storage[AUTH_TOKEN]]
      ensures !IsAuthenticated() ==> r == headers
    {
      var token := StoredToken();
      if token.Some? && token.value != "" then headers["Authorization" := "Bearer " + token.value] else headers
    }

    /** `clearAuth`: removes the token and the user name, and nothing else. */
    method ClearAuth()
      modifies this
      ensures storage == old(storage) - {AUTH_TOKEN, USER_NAME}
      ensures !IsAuthenticated() && StoredUserName().None?
    {
      storage := storage - {AUTH_TOKEN, USER_NAME};
    }

    /** `logout`: clears the session without asking the server. */
    method Logout()
      modifies this
      ensures storage == old(storage) - {AUTH_TOKEN, USER_NAME}
      ensures !IsAuthenticated() && StoredUserName().None?
    {
      ClearAuth();
    }

    /** The response interceptor's error path: a 401 clears the session; the error is passed on. */
    method OnResponseError(e: AxiosError)
      modifies this
      ensures storage == AfterRejection(old(storage), e)
    {
      if IsUnauthorized(e) {
        ClearAuth();
      }
    }

    /**
     * One call through the instance: the headers it goes out with, then the
     * response data or the rejection normalised by `handleError` (after the
     * response interceptor has run).
     */
    method Call<T>(reply: Reply<T>) returns (sent: map<string, string>, r: Result<T, ApiError>)
      modifies this
      ensures sent == old(WithAuthorization(DEFAULT_HEADERS))
      ensures reply.Ok? ==> r == Ok(reply.value) && storage == old(storage)
      ensures reply.Err? ==> r == Err(HandleError(reply.error)) && storage == AfterRejection(old(storage), reply.error)
    {
      sent := WithAuthorization(DEFAULT_HEADERS);
      match reply
      case Ok(data) =>
        r := Ok(data);
      case Err(e) =>
        OnResponseError(e);
        r := Err(HandleError(e));
    }

    /**
     * `login`: a token that is present and not `fail` is stored with the
     * user name and returned; otherwise `Invalid credentials` with status 0
     * is thrown and nothing is stored.
     */
    method Login(credentials: Credentials, reply: Reply<string>) returns (r: Result<string, ApiError>)
      modifies this
      ensures reply.Ok? && AcceptedToken(reply.value) ==>
        && r == Ok(reply.value)
        && storage == old(storage)[AUTH_TOKEN := reply.value][USER_NAME := credentials.userName]
        && IsAuthenticated()
      ensures reply.Ok? && !AcceptedToken(reply.value) ==>
        r == Err(ApiError(Text("Invalid credentials"), 0)) && storage == old(storage)
      ensures reply.Err? ==>
        r == Err(HandleError(reply.error)) && storage == AfterRejection(old(storage), reply.error)
    {
      var _, posted := Call(reply);
      match posted
      case Err(e) =>
        r := Err(e);
      case Ok(token) =>
        if AcceptedToken(token) {
          storage := storage[AUTH_TOKEN := token];
          storage := storage[USER_NAME := credentials.userName];
          r := Ok(token);
        } else {
          r := Err(HandleError(Unsent("Invalid credentials")));
        }
    }

    /** `register`: a plain call through the instance; the created user or the normalised error. */
    method Register(data: RegisterData, reply: Reply<User>) returns (r: Result<User, ApiError>)
      modifies this
      ensures reply.Ok? ==> r == Ok(reply.value) && storage == old(storage)
      ensures reply.Err? ==> r == Err(HandleError(reply.error)) && storage == AfterRejection(old(storage), reply.error)
    {
      var _, result := Call(reply);
      r := result;
    }

    /** `createBudget`: posts the draft with `amountUsed` 0 and returns the created budget. */
    method CreateBudget(draft: BudgetDraft, reply: Reply<Budget>) returns (posted: BudgetPayload, r: Result<Budget, ApiError>)
      modifies this
      ensures posted == CreateBudgetPayload(draft) && posted.amountUsed == 0
      ensures reply.Ok? ==> r == Ok(reply.value) && storage == old(storage)
      ensures reply.Err? ==> r == Err(HandleError(reply.error)) && storage == AfterRejection(old(storage), reply.error)
    {
      posted := CreateBudgetPayload(draft);
      var _, result := Call(reply);
      r := result;
    }

    /**
     * `getBudget`: the user's budget, or `null` both for a 404 and for an
     * empty success body; every other failure is normalised and thrown.
     */
    method GetBudget(reply: Reply<Option<Budget>>) returns (r: Result<Option<Budget>, ApiError>)
      modifies this
      ensures reply.Ok? ==> r == Ok(reply.value) && storage == old(storage)
      ensures reply.Err? && reply.error.HttpError? && reply.error.status == 404 ==> r == Ok(None) && storage == old(storage)
      ensures reply.Err? && !(reply.error.HttpError? && reply.error.status == 404) ==>
        r == Err(HandleError(reply.error)) && storage == AfterRejection(old(storage), reply.error)
    {
      var _, result := Call(reply);
      if reply.Err? && reply.error.HttpError? && reply.error.status == 404 {
        r := Ok(None);
      } else {
        r := result;
      }
    }
  }
}
