/**
 * `api.ts`: the older client service. Its session keeps the token under
 * `authToken` and the serialised user under `user`.
 */
module LegacyApi {
  import opened Wrappers
  import opened Strings
  import opened Http

  const AUTH_TOKEN := "authToken"
  const USER := "user"

  datatype Credentials = Credentials(username: string, password: string)
  datatype RegisterData = RegisterData(username: string, password: string, email: string)

  /**
   * The login response body. An absent token is the empty string; `userJson`
   * is the text `JSON.stringify(response.data.user)` produces.
   */
  datatype AuthResponse = AuthResponse(token: string, userJson: string, message: string)

  /** `register`'s answer: it never throws. */
  datatype RegisterResult = RegisterResult(success: bool, message: Option<string>)

  datatype ApiError = ApiError(message: string, status: int)

  /**
   * `handleError`: the same three-way split on status as the newer service,
   * with the message taken only from a JSON body's `message` or a default.
   */
  function HandleError(e: AxiosError): (r: ApiError)
    ensures r.status == (if e.HttpError? then e.status else 0)
    ensures RealStatus(e) ==> (r.status == 0 <==> !e.HttpError?)
    ensures e.NoResponse? ==> r.message == "Network error. Please check your connection."
    ensures e.Unsent? ==> r.message == OrElse(e.message, "An unexpected error occurred")
    ensures e.HttpError? ==> r.message == OrElse(BodyMessage(e.body), "An error occurred")
    ensures r.message != ""
  {
    match e
    case HttpError(status, body) => ApiError(OrElse(BodyMessage(body), "An error occurred"), status)
    case NoResponse => ApiError("Network error. Please check your connection.", 0)
    case Unsent(m) => ApiError(OrElse(m, "An unexpected error occurred"), 0)
  }

  /** `data?.message`, with an absent message read as the empty string. */
  function BodyMessage(body: Body): string {
    if body.JsonBody? && body.message.Some? then body.message.value else ""
  }

  /** `register`'s mapping of the outcome: success with the body's message, or failure with a message. */
  function RegisterOutcome(reply: Reply<Option<string>>): (r: RegisterResult)
    ensures r.success <==> reply.Ok?
    ensures reply.Ok? ==> r.message == reply.value
    ensures reply.Err? ==> r.message.Some? && r.message.value != ""
    ensures reply.Err? && reply.error.HttpError? ==> r.message == Some(OrElse(BodyMessage(reply.error.body), "Registration failed."))
    ensures reply.Err? && !reply.error.HttpError? ==> r.message == Some("Registration failed.")
  {
    match reply
    case Ok(m) => RegisterResult(true, m)
    case Err(e) =>
      var fromBody := if e.HttpError? then BodyMessage(e.body) else "";
      RegisterResult(false, Some(OrElse(fromBody, "Registration failed.")))
  }

  class LegacyClient {
    var storage: map<string, string>

    constructor (persisted: map<string, string>)
      ensures storage == persisted
    {
      storage := persisted;
    }

    /** `!!getStoredToken()`. */
    predicate IsAuthenticated()
      reads this
      ensures IsAuthenticated() <==> AUTH_TOKEN in storage && storage[AUTH_TOKEN] != ""
    {
      AUTH_TOKEN in storage && storage[AUTH_TOKEN] != ""
    }

    /** The response interceptor's error path: a 401 removes `authToken` and `user`, not `userName`. */
    method OnResponseError(e: AxiosError)
      modifies this
      ensures IsUnauthorized(e) ==> storage == old(storage) - {AUTH_TOKEN, USER}
      ensures !IsUnauthorized(e) ==> storage == old(storage)
    {
      if IsUnauthorized(e) {
        storage := storage - {AUTH_TOKEN, USER};
      }
    }

    /**
     * `login`: stores the token and the user only when the token is truthy,
     * and returns the response body either way; a rejection is normalised
     * and thrown.
     */
    method Login(credentials: Credentials, reply: Reply<AuthResponse>) returns (r: Result<AuthResponse, ApiError>)
      modifies this
      ensures reply.Ok? && reply.value.token != "" ==>
        && storage == old(storage)[AUTH_TOKEN := reply.value.token][USER := reply.value.userJson]
        && IsAuthenticated()
      ensures reply.Ok? && reply.value.token == "" ==> storage == old(storage)
      ensures reply.Ok? ==> r == Ok(reply.value)
      ensures reply.Err? ==> r == Err(HandleError(reply.error))
      ensures reply.Err? && IsUnauthorized(reply.error) ==> storage == old(storage) - {AUTH_TOKEN, USER}
      ensures reply.Err? && !IsUnauthorized(reply.error) ==> storage == old(storage)
    {
      match reply
      case Ok(response) =>
        if response.token != "" {
          storage := storage[AUTH_TOKEN := response.token];
          storage := storage[USER := response.userJson];
        }
        r := Ok(response);
      case Err(e) =>
        OnResponseError(e);
        r := Err(HandleError(e));
    }

    /** `register`: never throws; a 401 still passes through the interceptor. */
    method Register(data: RegisterData, reply: Reply<Option<string>>) returns (r: RegisterResult)
      modifies this
      ensures r == RegisterOutcome(reply)
      ensures reply.Err? && IsUnauthorized(reply.error) ==> storage == old(storage) - {AUTH_TOKEN, USER}
      ensures !(reply.Err? && IsUnauthorized(reply.error)) ==> storage == old(storage)
    {
      if reply.Err? {
        OnResponseError(reply.error);
      }
      r := RegisterOutcome(reply);
    }

    /** `logout`: whatever the server answers, `authToken` and `user` are gone afterwards. */
    method Logout(reply: Reply<()>)
      modifies this
      ensures storage == old(storage) - {AUTH_TOKEN, USER}
      ensures !IsAuthenticated()
    {
      if reply.Err? {
        OnResponseError(reply.error);
      }
      storage := storage - {AUTH_TOKEN, USER};
    }
  }
}
