/**
 * `Login.tsx`: the login form's two fields, its error dictionary (the field
 * rules, or one `general` entry after a failed request), and the submit
 * handler that validates, calls `login` and reports success to the app.
 */
module Login {
  import opened Wrappers
  import opened Strings
  import opened FieldRules
  import opened Http
  import ApiService

  const LOGIN_FAILED := "Login failed. Please try again."

  datatype Field = UserNameField | PasswordField

  /** The input `name` of each field, which is also its key in the error dictionary. */
  function Key(f: Field): (k: ErrorKey)
    ensures k == UserNameKey || k == PasswordKey
  {
    match f
    case UserNameField => UserNameKey
    case PasswordField => PasswordKey
  }

  /** `{ ...prev, [name]: value }` on the form. */
  function WithField(form: ApiService.Credentials, f: Field, value: string): (r: ApiService.Credentials)
    ensures f == UserNameField ==> r == form.(userName := value)
    ensures f == PasswordField ==> r == form.(password := value)
  {
    match f
    case UserNameField => form.(userName := value)
    case PasswordField => form.(password := value)
  }

  /** The rule, if any, that the field under `key` breaks: the registration rules without the e-mail one. */
  function LoginRule(form: ApiService.Credentials, key: ErrorKey): Option<Rule> {
    match key
    case UserNameKey => UserNameError(form.userName)
    case PasswordKey => PasswordError(form.password)
    case _ => None
  }

  ghost predicate ValidLogin(form: ApiService.Credentials) {
    !IsBlank(form.userName) && !IsBlank(form.password) && |form.password| >= MIN_PASSWORD_LENGTH
  }

  /** A dictionary holding exactly the broken rules is empty iff the form is valid. */
  lemma EmptyIffValid(form: ApiService.Credentials, errors: map<ErrorKey, ErrorText>)
    requires forall k :: Get(errors, k) == EntryFor(LoginRule(form, k))
    ensures errors == map[] <==> ValidLogin(form)
  {
    if errors != map[] {
      var k :| k in errors;
      assert Get(errors, k).Some?;
    } else {
      assert Get(errors, UserNameKey).None?;
      assert Get(errors, PasswordKey).None?;
    }
  }

  /** The error `login` rejects with: the normalised transport error, or `Invalid credentials` for a refused token. */
  function LoginFailure(reply: Reply<string>): (e: ApiService.ApiError)
    requires !(reply.Ok? && ApiService.AcceptedToken(reply.value))
    ensures reply.Err? ==> e == ApiService.HandleError(reply.error)
    ensures reply.Ok? ==> e == ApiService.ApiError(ApiService.Text("Invalid credentials"), 0)
  {
    if reply.Err? then ApiService.HandleError(reply.error)
    else ApiService.ApiError(ApiService.Text("Invalid credentials"), 0)
  }

  class LoginForm {
    var form: ApiService.Credentials
    var errors: map<ErrorKey, ErrorText>
    var isLoading: bool

    constructor ()
      ensures form == ApiService.Credentials("", "") && errors == map[] && !isLoading
    {
      form := ApiService.Credentials("", "");
      errors := map[];
      isLoading := false;
    }

    /** `handleInputChange`: writes the one field and blanks that field's error if it was shown. */
    method HandleInputChange(f: Field, value: string)
      modifies this`form, this`errors
      ensures form == WithField(old(form), f, value)
      ensures errors == ClearedFor(old(errors), Key(f))
    {
      form := WithField(form, f, value);
      var key := Key(f);
      if key in errors && Shown(errors[key]) {
        errors := errors[key := Blanked];
      }
    }

    /** `validateForm`: recomputes the dictionary from scratch and reports whether it is empty. */
    method ValidateForm() returns (valid: bool)
      modifies this`errors
      ensures forall k :: Get(errors, k) == EntryFor(LoginRule(form, k))
      ensures valid <==> ValidLogin(form)
      ensures valid <==> errors == map[]
    {
      var newErrors: map<ErrorKey, ErrorText> := map[];
      if IsBlank(form.userName) {
        newErrors := newErrors[UserNameKey := RuleText(UserNameRequired)];
      }
      if IsBlank(form.password) {
        newErrors := newErrors[PasswordKey := RuleText(PasswordRequired)];
      } else if |form.password| < MIN_PASSWORD_LENGTH {
        newErrors := newErrors[PasswordKey := RuleText(PasswordTooShort)];
      }
      errors := newErrors;
      valid := |errors.Keys| == 0;
      EmptyIffValid(form, errors);
    }

    /**
     * `handleSubmit`: an invalid form sends nothing. Otherwise `login` is
     * called; on success the app is told (`onLogin`), and on failure the
     * dictionary becomes the single `general` entry with the error's message
     * or the default. The client's storage changes exactly as `login`
     * changes it: the session is stored for an accepted token, kept for a
     * refused one, and cleared by a 401. The request is no longer pending
     * afterwards.
     */
    method HandleSubmit(api: ApiService.Client, reply: Reply<string>) returns (loggedIn: bool)
      modifies this, api
      ensures loggedIn <==> ValidLogin(old(form)) && reply.Ok? && ApiService.AcceptedToken(reply.value)
      ensures loggedIn ==> api.IsAuthenticated() && api.StoredUserName() == Some(old(form).userName)
      ensures ValidLogin(old(form)) && reply.Ok? && ApiService.AcceptedToken(reply.value) ==>
        api.storage == old(api.storage)[ApiService.AUTH_TOKEN := reply.value][ApiService.USER_NAME := old(form).userName]
      ensures ValidLogin(old(form)) && reply.Ok? && !ApiService.AcceptedToken(reply.value) ==>
        api.storage == old(api.storage)
      ensures ValidLogin(old(form)) && reply.Err? ==>
        api.storage == ApiService.AfterRejection(old(api.storage), reply.error)
      ensures form == old(form)
      ensures !ValidLogin(old(form)) ==>
        && (forall k :: Get(errors, k) == EntryFor(LoginRule(old(form), k)))
        && isLoading == old(isLoading) && api.storage == old(api.storage)
      ensures ValidLogin(old(form)) ==> !isLoading
      ensures loggedIn ==> errors == map[]
      ensures ValidLogin(old(form)) && !loggedIn ==>
        errors == map[GeneralKey := RequestFailed(ApiService.MessageOr(LoginFailure(reply).message, LOGIN_FAILED))]
    {
      var valid := ValidateForm();
      if !valid {
        loggedIn := false;
        return;
      }
      isLoading := true;
      var r := api.Login(form, reply);
      match r {
        case Ok(_) =>
          loggedIn := true;
        case Err(e) =>
          errors := map[GeneralKey := RequestFailed(ApiService.MessageOr(e.message, LOGIN_FAILED))];
          loggedIn := false;
      }
      isLoading := false;
    }
  }
}
