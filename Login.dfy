/**
 * The login page: its two inputs, the field-error object `validate`
 * computes from them with the same email and password rules as the
 * register page, and the submit handler that gates the login request.
 */
module Login {
  import opened Wrappers
  import opened EmailRegex
  import opened FieldRules
  import Register

  /** The only properties the login form's error object can have. */
  const LoginKeys := {Email, Password}

  const LoginFailed := "Login failed. Please check your credentials."

  /** The JSON body of the login request. */
  datatype LoginBody = LoginBody(email: string, password: string)

  /** The message the login form's rule for `field` gives, if any. */
  function LoginCheck(field: Field, email: string, password: string): Option<string> {
    match field
    case Email => EmailError(email)
    case Password => PasswordError(password)
    case _ => None
  }

  /**
   * The error object `validate` stores: the email and password entries the
   * shared rules give, nothing else, and empty exactly when the email is in
   * the pattern's language and the password has at least six characters.
   */
  function LoginErrors(email: string, password: string): (errs: Errors)
    ensures errs.Keys <= LoginKeys
    ensures Lookup(errs, Email) == EmailError(email)
    ensures Lookup(errs, Password) == PasswordError(password)
    ensures errs == map[] <==> InPattern(email) && |password| >= MinPasswordLength
  {
    var errs := map field | field in LoginKeys && LoginCheck(field, email, password).Some?
                  :: LoginCheck(field, email, password).value;
    assert Lookup(errs, Email) == EmailError(email);
    assert Lookup(errs, Password) == PasswordError(password);
    assert EmailError(email) == None && PasswordError(password) == None ==> errs == map[] by {
      if EmailError(email) == None && PasswordError(password) == None {
        SameErrors(errs, map[], LoginKeys);
      }
    }
    errs
  }

  /** For the same email and password, the login and register forms report the same email and password errors. */
  lemma LoginAgreesWithRegister(name: string, email: string, password: string, confirm: string, acceptTos: bool)
    ensures var login := LoginErrors(email, password);
            var register := Register.RegisterErrors(name, email, password, confirm, acceptTos);
            Lookup(login, Email) == Lookup(register, Email) && Lookup(login, Password) == Lookup(register, Password)
  {
  }

  /** The state of the login page that the handlers read and write. */
  class LoginPage {
    var email: string
    var password: string
    var loading: bool
    var error: string
    var fieldErrors: Errors

    /** The page as first rendered: empty inputs, no errors. */
    constructor ()
      ensures email == "" && password == ""
      ensures !loading && error == "" && fieldErrors == map[]
    {
      email, password := "", "";
      loading, error, fieldErrors := false, "", map[];
    }

    /**
     * `validate`: checks the two fields, stores the resulting error object
     * and reports whether it has no properties.
     */
    method Validate() returns (ok: bool)
      modifies this`fieldErrors
      ensures fieldErrors == LoginErrors(email, password)
      ensures ok <==> fieldErrors == map[]
      ensures ok <==> InPattern(email) && |password| >= MinPasswordLength
    {
      var errs: Errors := map[];
      if email == "" {
        errs := errs[Email := EmailRequired];
      } else if !Test(email) {
        errs := errs[Email := EmailInvalid];
      }
      if password == "" {
        errs := errs[Password := PasswordRequired];
      } else if |password| < MinPasswordLength {
        errs := errs[Password := PasswordTooShort];
      }
      TestIffPattern(email);
      SameErrors(errs, LoginErrors(email, password), LoginKeys);
      fieldErrors := errs;
      ok := |errs| == 0;
    }

    /**
     * `handleSubmit` up to the request: clears the page error, validates,
     * and when validation fails returns with loading untouched and nothing
     * sent; otherwise sets loading and returns the body it posts.
     */
    method Submit() returns (request: Option<LoginBody>)
      modifies this`error, this`fieldErrors, this`loading
      ensures error == ""
      ensures fieldErrors == LoginErrors(email, password)
      ensures request != None <==> InPattern(email) && |password| >= MinPasswordLength
      ensures request == None ==> loading == old(loading)
      ensures request != None ==> loading && request == Some(LoginBody(email, password))
    {
      error := "";
      var ok := Validate();
      if !ok {
        return None;
      }
      loading := true;
      request := Some(LoginBody(email, password));
    }

    /**
     * `handleSubmit` after the request: a failed response shows the
     * server's message, or the login default when it has none; a thrown
     * error shows its message, or the network default; a success leaves
     * the error alone. Loading ends false on every path.
     */
    method Settle(outcome: FetchOutcome)
      modifies this`loading, this`error
      ensures !loading
      ensures outcome.Response? && outcome.ok ==> error == old(error)
      ensures outcome.Response? && !outcome.ok ==> error == MessageOr(outcome.message, LoginFailed)
      ensures outcome.Thrown? ==> error == MessageOr(outcome.message, NetworkError)
    {
      match outcome
      case Response(ok, message) =>
        if !ok {
          error := MessageOr(message, LoginFailed);
          loading := false;
          return;
        }
        loading := false;
      case Thrown(message) =>
        error := MessageOr(message, NetworkError);
        loading := false;
    }
  }
}
