/**
 * The field rules shared by the registration and login forms: a user name
 * must not be blank, a password must not be blank and, untrimmed, must have
 * at least six characters, and (registration only) an e-mail must not be
 * blank and must contain a match of the e-mail pattern.
 */
module FieldRules {
  import opened Wrappers
  import opened Strings
  import opened EmailPattern
  import ApiService

  /**
   * The keys the forms put in their error dictionaries: each input's `name`,
   * and `general` for the login form's request failure.
   */
  datatype ErrorKey = UserNameKey | EmailKey | PasswordKey | GeneralKey

  /** The dictionary key as the page writes it. */
  function KeyName(k: ErrorKey): string {
    match k
    case UserNameKey => "userName"
    case EmailKey => "email"
    case PasswordKey => "password"
    case GeneralKey => "general"
  }

  /** The rule a field breaks; each has one fixed message. */
  datatype Rule = UserNameRequired | EmailRequired | EmailInvalid | PasswordRequired | PasswordTooShort

  function RuleMessage(rule: Rule): string {
    match rule
    case UserNameRequired => "Username is required"
    case EmailRequired => "Email is required"
    case EmailInvalid => "Please enter a valid email address"
    case PasswordRequired => "Password is required"
    case PasswordTooShort => "Password must be at least 6 characters"
  }

  const MIN_PASSWORD_LENGTH := 6

  /**
   * A value in an error dictionary: a broken rule's message, the empty
   * string an edit leaves behind, or (login only) a failed request's message.
   */
  datatype ErrorText = RuleText(rule: Rule) | Blanked | RequestFailed(message: ApiService.ErrorMessage)

  /** `if (errors[name])`. */
  predicate Shown(t: ErrorText) {
    match t
    case RuleText(_) => true
    case Blanked => false
    case RequestFailed(m) => ApiService.Truthy(m)
  }

  /** The dictionary entry a rule check leaves: the rule's message, or no key at all. */
  function EntryFor(rule: Option<Rule>): (r: Option<ErrorText>)
    ensures r.Some? <==> rule.Some?
    ensures r.Some? ==> r.value == RuleText(rule.value) && Shown(r.value)
  {
    if rule.Some? then Some(RuleText(rule.value)) else None
  }

  /**
   * `handleInputChange`'s effect on the dictionary: the edited field's entry
   * becomes the empty string if it was shown; every other entry is kept.
   */
  function ClearedFor(errors: map<ErrorKey, ErrorText>, key: ErrorKey): (r: map<ErrorKey, ErrorText>)
    ensures r.Keys == errors.Keys
    ensures forall k :: k in r && k != key ==> r[k] == errors[k]
    ensures key in r ==> !Shown(r[key])
    ensures key in r && !Shown(errors[key]) ==> r[key] == errors[key]
  {
    if key in errors && Shown(errors[key]) then errors[key := Blanked] else errors
  }

  /** The user-name error, if any. */
  function UserNameError(userName: string): (r: Option<Rule>)
    ensures r.Some? <==> IsBlank(userName)
    ensures r.Some? ==> r.value == UserNameRequired
  {
    if IsBlank(userName) then Some(UserNameRequired) else None
  }

  /** The e-mail error, if any: blank and malformed are exclusive, blank wins. */
  function EmailError(email: string): (r: Option<Rule>)
    ensures r == Some(EmailRequired) <==> IsBlank(email)
    ensures r == Some(EmailInvalid) <==> !IsBlank(email) && !MatchesEmailPattern(email)
    ensures r.None? <==> !IsBlank(email) && MatchesEmailPattern(email)
  {
    if IsBlank(email) then Some(EmailRequired)
    else if !HasEmailMatch(email) then Some(EmailInvalid)
    else None
  }

  /**
   * The password error, if any: blank comes first; otherwise the length
   * counted includes any surrounding spaces.
   */
  function PasswordError(password: string): (r: Option<Rule>)
    ensures r == Some(PasswordRequired) <==> IsBlank(password)
    ensures r == Some(PasswordTooShort) <==> !IsBlank(password) && |password| < MIN_PASSWORD_LENGTH
    ensures r.None? <==> !IsBlank(password) && |password| >= MIN_PASSWORD_LENGTH
  {
    if IsBlank(password) then Some(PasswordRequired)
    else if |password| < MIN_PASSWORD_LENGTH then Some(PasswordTooShort)
    else None
  }

  /** A password needs one visible character: six characters of which five are spaces pass. */
  lemma PaddedPasswordAccepted(c: char)
    requires !IsWhitespace(c)
    ensures PasswordError([c, ' ', ' ', ' ', ' ', ' ']).None?
  {
    var p := [c, ' ', ' ', ' ', ' ', ' '];
    assert !IsWhitespace(p[0]);
  }
}
