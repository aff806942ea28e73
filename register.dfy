/**
 * `Register.tsx`: the registration form's fields, its error dictionary, and
 * the submit handler that validates, calls `register` and reports the
 * outcome.
 */
module Register {
  import opened Wrappers
  import opened Strings
  import opened EmailPattern
  import opened FieldRules
  import opened Http
  import ApiService

  const SUCCESS_MESSAGE := "Registration successful! Redirecting to login..."
  const REGISTRATION_FAILED := "Registration failed."

  datatype Field = UserNameField | EmailField | PasswordField

  /** The input `name` of each field, which is also its key in the error dictionary. */
  function Key(f: Field): (k: ErrorKey)
    ensures k != GeneralKey
  {
    match f
    case UserNameField => UserNameKey
    case EmailField => EmailKey
    case PasswordField => PasswordKey
  }

  /** `{ ...prev, [name]: value }` on the form. */
  function WithField(form: ApiService.RegisterData, f: Field, value: string): (r: ApiService.RegisterData)
    ensures f == UserNameField ==> r == form.(userName := value)
    ensures f == EmailField ==> r == form.(email := value)
    ensures f == PasswordField ==> r == form.(password := value)
  {
    match f
    case UserNameField => form.(userName := value)
    case EmailField => form.(email := value)
    case PasswordField => form.(password := value)
  }

  /** The rule, if any, that the field under `key` breaks. */
  function RegisterRule(form: ApiService.RegisterData, key: ErrorKey): Option<Rule> {
    match key
    case UserNameKey => UserNameError(form.userName)
    case EmailKey => EmailError(form.email)
    case PasswordKey => PasswordError(form.password)
    case GeneralKey => None
  }

  /** Every field passes its rule. */
  ghost predicate ValidRegistration(form: ApiService.RegisterData) {
    && !IsBlank(form.userName)
    && !IsBlank(form.email) && MatchesEmailPattern(form.email)
    && !IsBlank(form.password) && |form.password| >= MIN_PASSWORD_LENGTH
  }

  /** A dictionary holding exactly the broken rules is empty iff the form is valid. */
  lemma EmptyIffValid(form: ApiService.RegisterData, errors: map<ErrorKey, ErrorText>)
    requires forall k :: Get(errors, k) == EntryFor(RegisterRule(form, k))
    ensures errors == map[] <==> ValidRegistration(form)
  {
    if errors != map[] {
      var k :| k in errors;
      assert Get(errors, k).Some?;
    } else {
      assert Get(errors, UserNameKey).None?;
      assert Get(errors, EmailKey).None?;
      assert Get(errors, PasswordKey).None?;
    }
  }

  class RegisterForm {
    var form: ApiService.RegisterData
    var errors: map<ErrorKey, ErrorText>
    var isLoading: bool
    var success: string
    var error: ApiService.ErrorMessage

    /** An empty form with no errors, no banner and no pending request. */
    constructor ()
      ensures form == ApiService.RegisterData("", "", "") && errors == map[]
      ensures !isLoading && success == "" && error == ApiService.Text("")
    {
      form := ApiService.RegisterData("", "", "");
      errors := map[];
      isLoading := false;
      success := "";
      error := ApiService.Text("");
    }

    /** `handleInputChange`: writes the one field and blanks that field's error if it was shown. */
    method HandleInputChange(f: Field, value: string)
      modifies this`form, this`errors
      ensures form == WithField(old(form), f, value)
      ensures errors == ClearedFor(old(errors), Key(f))
    {
      form := WithField(form, f, value);
      var key := Key(f);
      if key in errors && Shown(errors[key]) {
        errors := errors[key := Blanked];
      }
    }

    /**
     * `validateForm`: recomputes the dictionary from scratch, one entry per
     * broken rule, and reports whether it is empty.
     */
    method ValidateForm() returns (valid: bool)
      modifies this`errors
      ensures forall k :: Get(errors, k) == EntryFor(RegisterRule(form, k))
      ensures valid <==> ValidRegistration(form)
      ensures valid <==> errors == map[]
    {
      var f := form;
      var newErrors: map<ErrorKey, ErrorText> := map[];
      if IsBlank(f.userName) {
        newErrors := newErrors[UserNameKey := RuleText(UserNameRequired)];
      }
      assert Get(newErrors, UserNameKey) == EntryFor(UserNameError(f.userName));
      assert EmailKey !in newErrors && PasswordKey !in newErrors && GeneralKey !in newErrors;
      if IsBlank(f.email) {
        newErrors := newErrors[EmailKey := RuleText(EmailRequired)];
      } else if !HasEmailMatch(f.email) {
        newErrors := newErrors[EmailKey := RuleText(EmailInvalid)];
      }
      assert Get(newErrors, UserNameKey) == EntryFor(UserNameError(f.userName));
      assert Get(newErrors, EmailKey) == EntryFor(EmailError(f.email));
      assert PasswordKey !in newErrors && GeneralKey !in newErrors;
      if IsBlank(f.password) {
        newErrors := newErrors[PasswordKey := RuleText(PasswordRequired)];
      } else if |f.password| < MIN_PASSWORD_LENGTH {
        newErrors := newErrors[PasswordKey := RuleText(PasswordTooShort)];
      }
      assert Get(newErrors, PasswordKey) == EntryFor(PasswordError(f.password));
      assert GeneralKey !in newErrors;
      forall k
        ensures Get(newErrors, k) == EntryFor(RegisterRule(f, k))
      {
        match k
        case UserNameKey =>
        case EmailKey =>
        case PasswordKey =>
        case GeneralKey =>
      }
      EmptyIffValid(f, newErrors);
      errors := newErrors;
      valid := |newErrors.Keys| == 0;
    }

    /**
     * `handleSubmit`: clears the banners and validates; an invalid form sends
     * nothing. A successful registration shows the success text and empties
     * the form; a failure shows the error's message or the default. The
     * request is no longer pending afterwards.
     */
    method HandleSubmit(api: ApiService.Client, reply: Reply<ApiService.User>) returns (requested: bool)
      modifies this, api
      ensures forall k :: Get(errors, k) == EntryFor(RegisterRule(old(form), k))
      ensures requested <==> ValidRegistration(old(form))
      ensures !requested ==>
        && form == old(form) && isLoading == old(isLoading) && api.storage == old(api.storage)
        && success == "" && error == ApiService.Text("")
      ensures requested ==> !isLoading
      ensures requested && reply.Ok? ==>
        && form == ApiService.RegisterData("", "", "") && success == SUCCESS_MESSAGE
        && error == ApiService.Text("") && api.storage == old(api.storage)
      ensures requested && reply.Err? ==>
        && form == old(form) && success == ""
        && error == ApiService.MessageOr(ApiService.HandleError(reply.error).message, REGISTRATION_FAILED)
        && api.storage == ApiService.AfterRejection(old(api.storage), reply.error)
    {
      error := ApiService.Text("");
      success := "";
      var valid := ValidateForm();
      if !valid {
        requested := false;
        return;
      }
      requested := true;
      isLoading := true;
      var r := api.Register(form, reply);
      match r {
        case Ok(_) =>
          success := SUCCESS_MESSAGE;
          form := ApiService.RegisterData("", "", "");
        case Err(e) =>
          error := ApiService.MessageOr(e.message, REGISTRATION_FAILED);
      }
      isLoading := false;
    }
  }
}
