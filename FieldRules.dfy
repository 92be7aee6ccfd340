/**
 * What the three forms share: field-error objects keyed by the fields
 * whose property names the pages use, and the email and password rules that the
 * register and login forms both apply (required first, then format or
 * length), with their messages.
 */
module FieldRules {
  import opened Wrappers
  import opened JsText
  import opened EmailRegex

  /** The properties a field-error object of any of the forms can carry, named as in the source. */
  datatype Field = Name | Email | Password | Confirm | AcceptTos | Message | Submit

  /** A field-error object: property to message. */
  type Errors = map<Field, string>

  const EmailRequired := "Email is required"
  const EmailInvalid := "Enter a valid email"
  const PasswordRequired := "Password is required"
  const PasswordTooShort := "Password must be at least 6 characters"
  const NetworkError := "Network error. Please try again."

  /** The shortest password the forms accept. */
  const MinPasswordLength := 6

  /** `errs[key]`, with a missing property read as `None`. */
  function Lookup(errs: Errors, key: Field): Option<string> {
    if key in errs then Some(errs[key]) else None
  }

  /** Two error objects over the same fields are equal when every field reads the same in both. */
  lemma SameErrors(a: Errors, b: Errors, keys: set<Field>)
    requires a.Keys <= keys && b.Keys <= keys
    requires forall key :: key in keys ==> Lookup(a, key) == Lookup(b, key)
    ensures a == b
  {
  }

  /**
   * The email rule of the register and login forms: an empty email is
   * "required", a non-empty one that fails the pattern is "invalid". The
   * two messages never both apply, and no message means the pattern holds.
   */
  function EmailError(email: string): (r: Option<string>)
    ensures r == None <==> InPattern(email)
    ensures r == Some(EmailRequired) <==> email == ""
    ensures r == Some(EmailInvalid) <==> email != "" && !InPattern(email)
  {
    TestIffPattern(email);
    if email == "" then Some(EmailRequired)
    else if !Test(email) then Some(EmailInvalid)
    else None
  }

  /**
   * The password rule of the register and login forms: empty is "required",
   * one to five characters is "too short", six or more is accepted whatever
   * the characters are (the password is not trimmed).
   */
  function PasswordError(password: string): (r: Option<string>)
    ensures r == None <==> |password| >= MinPasswordLength
    ensures r == Some(PasswordRequired) <==> password == ""
    ensures r == Some(PasswordTooShort) <==> 0 < |password| < MinPasswordLength
  {
    if password == "" then Some(PasswordRequired)
    else if |password| < MinPasswordLength then Some(PasswordTooShort)
    else None
  }

  /**
   * How an awaited request to the authentication endpoint ended: a response,
   * with `res.ok` and the `message` property of its JSON body (`None` when
   * the body is not JSON or has no message), or a thrown error with its
   * `message` property.
   */
  datatype FetchOutcome = Response(ok: bool, message: Option<string>) | Thrown(message: Option<string>)

  /**
   * `message || fallback`: the message when it is a non-empty string,
   * otherwise the fallback. With a non-empty fallback the page always has
   * something to show.
   */
  function MessageOr(message: Option<string>, fallback: string): (r: string)
    ensures message.Some? && message.value != "" ==> r == message.value
    ensures message == None || message.value == "" ==> r == fallback
    ensures Truthy(fallback) ==> Truthy(r)
  {
    if message.Some? && Truthy(message.value) then message.value else fallback
  }
}
