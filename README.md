# Form validation of the household expense splitter frontend

The repository is a React frontend for a household expense-splitting
application. The only code in it with behaviour worth stating is the
client-side validation of its three forms and the handlers around it:

- the **register** page checks a name, an email, a password, a password
  confirmation and a terms checkbox, stores an error object with one message
  per failing field, and only then posts the registration;
- the **login** page applies the same email and password rules to its two
  fields before posting the credentials;
- the **contact** page checks a trimmed name, an email and a trimmed message,
  pretends to send (a timer), then shows a thank-you text and resets the
  form; its Clear button resets the form at any time.

All three use the email test `/^\S+@\S+\.\S+$/`, and the contact and
register pages use `String.prototype.trim`.

The expense splitting, "who owes whom" and settlement features that the home
page advertises have no implementation anywhere in the repository (they are
marketing text), so nothing of them is modelled.

Files:

- `JsText.dfy` — the ECMA-262 whitespace set shared by `trim` and `\S`,
  string truthiness, and `trim` with its characterisation.
- `EmailRegex.dfy` — the language of the email pattern, a backtracking-free
  decision procedure for it, and the proof that the two agree.
- `FieldRules.dfy` — the field-error object, the email and password rules
  shared by register and login, and the `message || fallback` choice.
- `Register.dfy`, `Login.dfy`, `Contact.dfy` — per page, the error object as
  a function of the inputs, and a class holding the page state whose methods
  are `validate` and the submit handler (split at the `await` into `Submit`,
  which runs up to the request, and `Settle`, which runs when it completes),
  plus `Clear` on the contact page.
- `Wrappers.dfy` — `Option`.

## Model

| member | source | states |
|---|---|---|
| `JsText.Trim` | Frontend/src/pages/Register.jsx:34 | `trim()` returns an infix of its input with only whitespace before and after it, neither end of it is whitespace, and it is empty exactly when the input is all whitespace; so `!s.trim()` holds exactly of blank strings |
| `EmailRegex.TestIffPattern` | Frontend/src/pages/Register.jsx:36 | the email test accepts exactly the strings that split into a non-empty whitespace-free run, `@`, another such run, `.`, and a third such run |
| `EmailRegex.Examples` | Frontend/src/pages/Register.jsx:36 | `a@b.c` and `you@example.com` pass; `a@b`, `@b.c`, `a @b.c`, `a@.c` and `a@b.` fail |
| `EmailRegex.PatternNotBlank` | Frontend/src/pages/Contact.jsx:15-16 | a string the email pattern accepts is non-empty and not blank, so its `trim()` is truthy |
| `FieldRules.EmailError` | Frontend/src/pages/Register.jsx:35-36 | an empty email gets "Email is required"; a non-empty one gets "Enter a valid email" exactly when it fails the pattern; no message exactly when it matches |
| `FieldRules.PasswordError` | Frontend/src/pages/Register.jsx:38-40 | an empty password gets "Password is required"; one of length 1 to 5 gets the minimum-length message; length 6 or more gets nothing, whatever its characters |
| `FieldRules.MessageOr` | Frontend/src/pages/Register.jsx:69-71 | the shown error is the message when it is present and non-empty, and the fallback when it is absent or empty; so it is never empty when the fallback is not |
| `Register.ConfirmError` | Frontend/src/pages/Register.jsx:42-43 | an empty confirmation gets "Please confirm your password"; a non-empty one that differs from the password gets "Passwords do not match"; an equal non-empty one gets nothing |
| `Register.RegisterErrors` | Frontend/src/pages/Register.jsx:33-45 | the error object has keys only among name, email, password, confirm and acceptTos, and each field's entry is exactly what that field's rule gives (name: "Name is required" iff blank; acceptTos: "You must accept the terms" iff unticked) |
| `Register.RegisterErrorsEmptyIff` | Frontend/src/pages/Register.jsx:47-48 | the error object is empty exactly when the name is not blank, the email is in the pattern's language, the password has at least six characters, the confirmation equals it and the terms are accepted |
| `Register.RegisterPage.constructor` | Frontend/src/pages/Register.jsx:18-29 | the page starts with empty inputs, terms unticked, not loading and no errors |
| `Register.RegisterPage.Validate` | Frontend/src/pages/Register.jsx:32-49 | the field-by-field checks store exactly `RegisterErrors` of the current inputs, and the result is true exactly when that object has no keys, that is when the registration is acceptable |
| `Register.RegisterPage.Submit` | Frontend/src/pages/Register.jsx:52-57 | the page error is cleared; when validation fails nothing is posted and loading is untouched; otherwise loading is set and the body posted is the name, email and password |
| `Register.RegisterPage.Settle` | Frontend/src/pages/Register.jsx:59-87 | a non-ok response shows the server's message if truthy, else "Registration failed. Please check the details."; a thrown error shows its message if truthy, else "Network error. Please try again."; only an ok response navigates, to /login; loading is false on every path |
| `Login.LoginErrors` | Frontend/src/pages/Login.jsx:33-43 | the error object has keys only among email and password, its entries are those of the shared email and password rules, and it is empty exactly when the email is in the pattern's language and the password has at least six characters |
| `Login.LoginAgreesWithRegister` | Frontend/src/pages/Login.jsx:35-40 | for the same email and password, the login and register error objects have the same email and password entries |
| `Login.LoginPage.constructor` | Frontend/src/pages/Login.jsx:23-30 | the page starts with empty inputs, not loading and no errors |
| `Login.LoginPage.Validate` | Frontend/src/pages/Login.jsx:33-44 | the checks store exactly `LoginErrors` of the current inputs and return true exactly when the email matches and the password has at least six characters |
| `Login.LoginPage.Submit` | Frontend/src/pages/Login.jsx:47-53 | the page error is cleared; when validation fails nothing is posted and loading is untouched; otherwise loading is set and the body posted is the email and password |
| `Login.LoginPage.Settle` | Frontend/src/pages/Login.jsx:55-86 | a non-ok response shows the server's message if truthy, else "Login failed. Please check your credentials."; a thrown error shows its message if truthy, else the network default; an ok response leaves the error alone; loading is false on every path |
| `Contact.ContactEmailError` | Frontend/src/pages/Contact.jsx:15-16 | "Valid email is required" is given exactly when the email fails the pattern: the blank check in the same condition never decides anything |
| `Contact.ContactErrors` | Frontend/src/pages/Contact.jsx:13-19 | the error object has keys only among name, email and message; "Name is required" iff the name is blank, the email message iff the email is outside the pattern's language, "Message is required" iff the message is blank; empty exactly when none of these holds |
| `Contact.EmptyFormFailsEveryField` | Frontend/src/pages/Contact.jsx:14-17 | validating the empty form reports all three fields |
| `Contact.ContactPage.constructor` | Frontend/src/pages/Contact.jsx:7-10 | the page starts with an empty form, no errors, not loading and no success text |
| `Contact.ContactPage.Validate` | Frontend/src/pages/Contact.jsx:12-20 | the trim-and-pattern checks store exactly `ContactErrors` of the form and return true exactly when the form is acceptable |
| `Contact.ContactPage.Submit` | Frontend/src/pages/Contact.jsx:22-27 | the success text is cleared first; the form is never changed; when validation fails nothing is sent and loading is untouched, otherwise loading is set |
| `Contact.ContactPage.Settle` | Frontend/src/pages/Contact.jsx:28-38 | a completed send sets the thank-you text, resets the form to three empty strings and clears the errors (after which validation reports every field); a failed one keeps the form and success text and sets only the submit error; loading ends false |
| `Contact.ContactPage.Clear` | Frontend/src/pages/Contact.jsx:166-170 | whatever the state, the form becomes three empty strings and the errors and success text are cleared; loading is untouched; validation then reports every field |

## Left out

- The network, storage and navigation calls (`fetch`, `res.json()`, `localStorage`, `navigate`, the contact page's `setTimeout`) are not modelled as effects: the outcome of a request is a parameter of `Settle` (ok or not, and an optional message), the body a handler would post is returned by `Submit`, and the register page's navigation target is returned by its `Settle`.
- Storing the returned token and user in `localStorage` after a successful register or login is left out (storage I/O).
- FieldRules.MessageOr: a `message` that is present but not a string (a number, an object) is not modelled; only strings and absence are, with the empty string falsy as in JavaScript.
- FieldRules.PasswordError: password length is the number of characters, whereas `.length` counts UTF-16 code units, so a password of characters outside the Basic Multilingual Plane can be accepted in the source with fewer than six characters.
- Contact.ContactPage.Settle: the failure branch (`catch`) cannot be reached in the source, whose send is a timer that always resolves; it is modelled through the `failed` parameter so that the code as written is covered.
- React's state machinery (`useState`, batching, re-rendering), the input `onChange` handlers, the password visibility toggles, the disabled state of the submit buttons while loading, JSX rendering, aria attributes and styling are presentation and are not modelled; the page classes expose their fields directly instead of through setters.
- Frontend/src/components/Navbar.jsx (a drawer flag driven by DOM events), Frontend/src/pages/Home.jsx (static markup) and Frontend/tailwind.config.js (theme constants) are not part of this model.
