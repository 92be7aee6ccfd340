/**
 * The contact page: a three-field form, the error object `validate`
 * computes from it, the submit handler that waits on a simulated send and
 * then resets the form, and the Clear button.
 */
module Contact {
  import opened Wrappers
  import opened JsText
  import opened EmailRegex
  import opened FieldRules

  /** The form state: three strings. */
  datatype ContactForm = ContactForm(name: string, email: string, message: string)

  /** The form as first rendered and as both resets leave it. */
  const EmptyForm := ContactForm("", "", "")

  /** The only properties `validate`'s error object can have. */
  const ContactKeys := {Name, Email, Message}

  const NameRequired := "Name is required"
  const ValidEmailRequired := "Valid email is required"
  const MessageRequired := "Message is required"
  const SendFailed := "Failed to send. Please try again."
  const Thanks := "Thanks \U{2014} your message has been received. We'll reply soon."

  /**
   * The contact email rule `!email.trim() || !pattern.test(email)`. The
   * blank check is redundant: the rule fails exactly the emails outside
   * the pattern's language, because every email in it is non-blank.
   */
  function ContactEmailError(email: string): (r: Option<string>)
    ensures r == None <==> InPattern(email)
    ensures r != None ==> r == Some(ValidEmailRequired)
  {
    TestIffPattern(email);
    PatternNotBlank(email);
    if IsBlank(email) || !Test(email) then Some(ValidEmailRequired) else None
  }

  /** The message the contact form's rule for `field` gives, if any. */
  function ContactCheck(field: Field, form: ContactForm): Option<string> {
    match field
    case Name => if IsBlank(form.name) then Some(NameRequired) else None
    case Email => ContactEmailError(form.email)
    case Message => if IsBlank(form.message) then Some(MessageRequired) else None
    case _ => None
  }

  /** What a message the form lets through looks like, independently of any error text. */
  ghost predicate Acceptable(form: ContactForm) {
    !IsBlank(form.name) && InPattern(form.email) && !IsBlank(form.message)
  }

  /**
   * The error object `validate` stores: a name entry exactly when the name
   * is blank, an email entry exactly when the email is outside the
   * pattern's language, a message entry exactly when the message is blank,
   * and nothing else; empty exactly when the form is acceptable.
   */
  function ContactErrors(form: ContactForm): (errs: Errors)
    ensures errs.Keys <= ContactKeys
    ensures Lookup(errs, Name) == (if IsBlank(form.name) then Some(NameRequired) else None)
    ensures Lookup(errs, Email) == (if InPattern(form.email) then None else Some(ValidEmailRequired))
    ensures Lookup(errs, Message) == (if IsBlank(form.message) then Some(MessageRequired) else None)
    ensures errs == map[] <==> Acceptable(form)
  {
    var errs := map field | field in ContactKeys && ContactCheck(field, form).Some? :: ContactCheck(field, form).value;
    assert Lookup(errs, Name) == ContactCheck(Name, form);
    assert Lookup(errs, Email) == ContactCheck(Email, form);
    assert Lookup(errs, Message) == ContactCheck(Message, form);
    assert Acceptable(form) ==> errs == map[] by {
      if Acceptable(form) {
        SameErrors(errs, map[], ContactKeys);
      }
    }
    errs
  }

  /** An error object over the contact fields that reads, field by field, as the rules say is the one `ContactErrors` gives. */
  lemma ContactErrorsByField(errs: Errors, form: ContactForm)
    requires errs.Keys <= ContactKeys
    requires Lookup(errs, Name) == (if IsBlank(form.name) then Some(NameRequired) else None)
    requires Lookup(errs, Email) == (if InPattern(form.email) then None else Some(ValidEmailRequired))
    requires Lookup(errs, Message) == (if IsBlank(form.message) then Some(MessageRequired) else None)
    ensures errs == ContactErrors(form)
  {
  }

  /** Validating the empty form, as either reset leaves it, reports all three fields. */
  lemma EmptyFormFailsEveryField()
    ensures ContactErrors(EmptyForm).Keys == ContactKeys
  {
  }

  /** The state of the contact page that the handlers read and write. */
  class ContactPage {
    var form: ContactForm
    var errors: Errors
    var loading: bool
    var success: string

    /** The page as first rendered. */
    constructor ()
      ensures form == EmptyForm && errors == map[] && !loading && success == ""
    {
      form, errors, loading, success := EmptyForm, map[], false, "";
    }

    /**
     * `validate`: checks the three fields, stores the resulting error
     * object and reports whether it has no properties.
     */
    method Validate() returns (ok: bool)
      modifies this`errors
      ensures errors == ContactErrors(form)
      ensures ok <==> errors == map[]
      ensures ok <==> Acceptable(form)
    {
      var e: Errors := map[];
      if Trim(form.name) == "" {
        e := e[Name := NameRequired];
      }
      if Trim(form.email) == "" || !Test(form.email) {
        e := e[Email := ValidEmailRequired];
      }
      if Trim(form.message) == "" {
        e := e[Message := MessageRequired];
      }
      TestIffPattern(form.email);
      PatternNotBlank(form.email);
      ContactErrorsByField(e, form);
      errors := e;
      ok := |e| == 0;
    }

    /**
     * `onSubmit` up to the send: clears the success text, validates, and
     * when validation fails returns with the form and loading untouched;
     * otherwise sets loading and starts the send.
     */
    method Submit() returns (started: bool)
      modifies this`success, this`errors, this`loading
      ensures form == old(form)
      ensures success == ""
      ensures errors == ContactErrors(form)
      ensures started <==> Acceptable(form)
      ensures !started ==> loading == old(loading)
      ensures started ==> loading
    {
      success := "";
      var ok := Validate();
      if !ok {
        return false;
      }
      loading := true;
      started := true;
    }

    /**
     * `onSubmit` after the send. A completed send shows the thanks text,
     * resets the form and clears the errors, so that validating again
     * reports every field; a failed one keeps the form and replaces the
     * errors by the submit error. Loading ends false either way.
     */
    method Settle(failed: bool)
      modifies this`form, this`errors, this`success, this`loading
      ensures !loading
      ensures !failed ==> success == Thanks && form == EmptyForm && errors == map[]
      ensures !failed ==> ContactErrors(form).Keys == ContactKeys
      ensures failed ==> errors == map[Field.Submit := SendFailed] && form == old(form) && success == old(success)
    {
      if !failed {
        success := Thanks;
        form := EmptyForm;
        errors := map[];
        EmptyFormFailsEveryField();
      } else {
        errors := map[Field.Submit := SendFailed];
      }
      loading := false;
    }

    /**
     * The Clear button: whatever the state, the form is emptied and the
     * errors and success text are cleared; a send in flight is not
     * affected. Validating again reports every field.
     */
    method Clear()
      modifies this`form, this`errors, this`success
      ensures form == EmptyForm && errors == map[] && success == ""
      ensures ContactErrors(form).Keys == ContactKeys
    {
      form := EmptyForm;
      errors := map[];
      success := "";
      EmptyFormFailsEveryField();
    }
  }
}
