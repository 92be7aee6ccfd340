/**
 * The register page: its five inputs, the field-error object `validate`
 * computes from them, and the submit handler that gates the registration
 * request on that validation.
 */
module Register {
  import opened Wrappers
  import opened JsText
  import opened EmailRegex
  import opened FieldRules

  /** The only properties the register form's error object can have. */
  const RegisterKeys := {Name, Email, Password, Confirm, AcceptTos}

  const NameRequired := "Name is required"
  const ConfirmRequired := "Please confirm your password"
  const ConfirmMismatch := "Passwords do not match"
  const TosRequired := "You must accept the terms"
  const RegisterFailed := "Registration failed. Please check the details."

  /** Where a successful registration goes next. */
  const LoginRoute := "/login"

  /** The JSON body of the registration request: confirm and acceptTos are not sent. */
  datatype RegisterBody = RegisterBody(name: string, email: string, password: string)

  /**
   * The name rule: required, and a name of only whitespace counts as
   * missing (`!name.trim()` holds exactly of the blank names, by `Trim`'s
   * contract).
   */
  function NameError(name: string): Option<string> {
    if IsBlank(name) then Some(NameRequired) else None
  }

  /** The confirmation rule: required, then equal to the password character for character. */
  function ConfirmError(confirm: string, password: string): (r: Option<string>)
    ensures r == None <==> confirm != "" && confirm == password
    ensures r == Some(ConfirmRequired) <==> confirm == ""
    ensures r == Some(ConfirmMismatch) <==> confirm != "" && confirm != password
  {
    if confirm == "" then Some(ConfirmRequired)
    else if confirm != password then Some(ConfirmMismatch)
    else None
  }

  /** The terms rule: the box must be ticked. */
  function TosError(acceptTos: bool): Option<string> {
    if acceptTos then None else Some(TosRequired)
  }

  /** What a registration the form lets through looks like, independently of any message. */
  ghost predicate Acceptable(name: string, email: string, password: string, confirm: string, acceptTos: bool) {
    !IsBlank(name) && InPattern(email) && |password| >= MinPasswordLength &&
    confirm == password && acceptTos
  }

  /** The message the register form's rule for `field` gives, if any. */
  function RegisterCheck(field: Field, name: string, email: string, password: string, confirm: string, acceptTos: bool): Option<string> {
    match field
    case Name => NameError(name)
    case Email => EmailError(email)
    case Password => PasswordError(password)
    case Confirm => ConfirmError(confirm, password)
    case AcceptTos => TosError(acceptTos)
    case _ => None
  }

  /**
   * The error object `validate` stores: one entry per failing field, each
   * with that field's message, and keys only from the five field names.
   */
  function RegisterErrors(name: string, email: string, password: string, confirm: string, acceptTos: bool): (errs: Errors)
    ensures errs.Keys <= RegisterKeys
    ensures Lookup(errs, Name) == NameError(name)
    ensures Lookup(errs, Email) == EmailError(email)
    ensures Lookup(errs, Password) == PasswordError(password)
    ensures Lookup(errs, Confirm) == ConfirmError(confirm, password)
    ensures Lookup(errs, AcceptTos) == TosError(acceptTos)
  {
    var errs := map field | field in RegisterKeys && RegisterCheck(field, name, email, password, confirm, acceptTos).Some?
                  :: RegisterCheck(field, name, email, password, confirm, acceptTos).value;
    assert Lookup(errs, Name) == NameError(name);
    assert Lookup(errs, Email) == EmailError(email);
    assert Lookup(errs, Password) == PasswordError(password);
    assert Lookup(errs, Confirm) == ConfirmError(confirm, password);
    assert Lookup(errs, AcceptTos) == TosError(acceptTos);
    errs
  }

  /** The register form's error object is empty exactly when the registration is acceptable. */
  lemma RegisterErrorsEmptyIff(name: string, email: string, password: string, confirm: string, acceptTos: bool)
    ensures RegisterErrors(name, email, password, confirm, acceptTos) == map[] <==> Acceptable(name, email, password, confirm, acceptTos)
  {
  }

  /** An error object over the register fields that reads, field by field, as the rules say is the one `RegisterErrors` gives. */
  lemma RegisterErrorsByField(errs: Errors, name: string, email: string, password: string, confirm: string, acceptTos: bool)
    requires errs.Keys <= RegisterKeys
    requires Lookup(errs, Name) == NameError(name) && Lookup(errs, Email) == EmailError(email)
    requires Lookup(errs, Password) == PasswordError(password)
    requires Lookup(errs, Confirm) == ConfirmError(confirm, password)
    requires Lookup(errs, AcceptTos) == TosError(acceptTos)
    ensures errs == RegisterErrors(name, email, password, confirm, acceptTos)
  {
  }

  /** The state of the register page that the handlers read and write. */
  class RegisterPage {
    var name: string
    var email: string
    var password: string
    var confirm: string
    var acceptTos: bool
    var loading: bool
    var error: string
    var fieldErrors: Errors

    /** The page as first rendered: empty inputs, terms unticked, no errors. */
    constructor ()
      ensures name == "" && email == "" && password == "" && confirm == "" && !acceptTos
      ensures !loading && error == "" && fieldErrors == map[]
    {
      name, email, password, confirm, acceptTos := "", "", "", "", false;
      loading, error, fieldErrors := false, "", map[];
    }

    /**
     * `validate`: checks the fields in order, stores the resulting error
     * object and reports whether it has no properties.
     */
    method Validate() returns (ok: bool)
      modifies this`fieldErrors
      ensures fieldErrors == RegisterErrors(name, email, password, confirm, acceptTos)
      ensures ok <==> fieldErrors == map[]
      ensures ok <==> Acceptable(name, email, password, confirm, acceptTos)
    {
      var errs: Errors := map[];
      if Trim(name) == "" {
        errs := errs[Name := NameRequired];
      }
      if email == "" {
        errs := errs[Email := EmailRequired];
      } else if !Test(email) {
        errs := errs[Email := EmailInvalid];
      }
      if password == "" {
        errs := errs[Password := PasswordRequired];
      } else if |password| < MinPasswordLength {
        errs := errs[Password := PasswordTooShort];
      }
      if confirm == "" {
        errs := errs[Confirm := ConfirmRequired];
      } else if confirm != password {
        errs := errs[Confirm := ConfirmMismatch];
      }
      if !acceptTos {
        errs := errs[AcceptTos := TosRequired];
      }
      TestIffPattern(email);
      fieldErrors := errs;
      ok := |errs| == 0;
      RegisterErrorsByField(errs, name, email, password, confirm, acceptTos);
      RegisterErrorsEmptyIff(name, email, password, confirm, acceptTos);
    }

    /**
     * `handleSubmit` up to the request: clears the page error, validates,
     * and when validation fails returns with loading untouched and nothing
     * sent; otherwise sets loading and returns the body it posts.
     */
    method Submit() returns (request: Option<RegisterBody>)
      modifies this`error, this`fieldErrors, this`loading
      ensures error == ""
      ensures fieldErrors == RegisterErrors(name, email, password, confirm, acceptTos)
      ensures request != None <==> fieldErrors == map[]
      ensures request != None <==> Acceptable(name, email, password, confirm, acceptTos)
      ensures request == None ==> loading == old(loading)
      ensures request != None ==> loading && request == Some(RegisterBody(name, email, password))
    {
      error := "";
      var ok := Validate();
      if !ok {
        return None;
      }
      loading := true;
      request := Some(RegisterBody(name, email, password));
    }

    /**
     * `handleSubmit` after the request: a failed response shows the
     * server's message, or the registration default when it has none; a
     * thrown error shows its message, or the network default; a success
     * leaves the error alone and goes to the login page. Loading ends
     * false on every path.
     */
    method Settle(outcome: FetchOutcome) returns (navigateTo: Option<string>)
      modifies this`loading, this`error
      ensures !loading
      ensures navigateTo != None <==> outcome.Response? && outcome.ok
      ensures navigateTo != None ==> navigateTo == Some(LoginRoute) && error == old(error)
      ensures outcome.Response? && !outcome.ok ==> error == MessageOr(outcome.message, RegisterFailed)
      ensures outcome.Thrown? ==> error == MessageOr(outcome.message, NetworkError)
    {
      match outcome
      case Response(ok, message) =>
        if !ok {
          error := MessageOr(message, RegisterFailed);
          loading := false;
          return None;
        }
        loading := false;
        navigateTo := Some(LoginRoute);
      case Thrown(message) =>
        error := MessageOr(message, NetworkError);
        loading := false;
        navigateTo := None;
    }
  }
}
