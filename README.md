# Credential validation in the podcast directory client

This project models the credential checks of the podcast directory client's
two account forms: the sign-up form (`src/SignUp.jsx`) and the profile-update
form (`src/Profile.jsx`). Each form checks three things:

- the email contains `@`;
- the password has at least 8 characters, one symbol from `! @ # $ % & * ( ) [ ]`,
  one ASCII upper-case letter and one ASCII lower-case letter;
- the confirmation is empty or equals the password.

Each check returns a message, a checklist of requirements and a verdict. A
submit handler runs the checks, stores the messages and decides whether to send
the request to the remote API.

The project has four modules:

- `Js` (js.dfy) holds the two JavaScript rules the forms' conditions depend on:
  truthiness, and what reading `.isValid` off a value gives.
- `Validation` (validation.dfy) holds what both forms share. That is the
  `Requirement` and `Verdict` datatypes and the three character classes as
  explicit ASCII sets. It also has a scan for each regular-expression test and
  each `includes` call. Last, it gives reference definitions of the accepted
  email, password and confirmation, stated over string positions, and proves
  that the email and password rules are monotone under appending.
- `SignUp` (signup.dfy) holds the sign-up form's validators and its submit gate.
  The `SignUpForm` class holds the component's state fields and its handlers.
  `HandleLogin` runs the handler up to the `await` of the registration request.
  `FinishRegistration` runs the rest, with the network's answer as a parameter.
  `RunValidationEffect` is the effect that re-validates after each render.
  Its dependency list names the validators, which every render creates anew,
  so it runs after every render. `Mount` composes the first render with that
  effect. `FinishRegistrationAndRerender` composes the reply handler with it.
- `Profile` (profile.dfy) holds the profile form's own copies of the validators,
  which are proved equal to the sign-up copies. It also holds the update gate
  and the `ProfileForm` class.

The profile form's gate destructures the three verdicts into booleans and then
tests `isEmailValid.isValid && isPasswordValid.isValid && isConfirmPasswordValid.isValid`.
Reading `.isValid` off a boolean gives `undefined`, so the condition is false for
every input. The model keeps this behaviour as written. `Profile.UpdateGate` is
proved closed for all inputs. `Profile.GateRefusesEveryAcceptedTriple` shows
that every triple the sign-up gate lets through still leaves the update gate
closed. `Profile.GateStaysClosedForAcceptedCredentials` gives one such triple. Every call of
`HandleUpdateProfile` ends without a request and with `isValid` cleared. The
profile form has no effect that sets `isValid` again, so its update button stays
disabled after the first submit.

## Model

| member | source | states |
|---|---|---|
| `Js.ReadIsValid` | src/Profile.jsx:102 | reading `.isValid` off a non-object (a boolean) gives a falsy `undefined`; an object gives its own field |
| `Validation.Test` | src/SignUp.jsx:33-35 | a single-class regular-expression test is true exactly when some position of the string holds a character of the class |
| `Validation.Includes` | src/SignUp.jsx:18 | `includes` with a one-character needle is true exactly when the character occurs in the string |
| `Validation.HasCharInExtends` | src/SignUp.jsx:33-35 | a character-class test that holds on a string still holds after characters are appended |
| `Validation.PasswordAcceptedExtends` | src/SignUp.jsx:32-44 | an accepted password stays accepted when characters are appended |
| `Validation.EmailAcceptedExtends` | src/SignUp.jsx:18-22 | an accepted email stays accepted when characters are appended |
| `SignUp.ValidateEmail` | src/SignUp.jsx:17-29 | valid exactly when the email contains `@`; message `Email is valid` or `Email must contain @ symbol.`; a one-entry checklist whose `met` is the verdict |
| `SignUp.ValidatePassword` | src/SignUp.jsx:31-51 | valid exactly when the length is at least 8 and a symbol, an upper-case and a lower-case letter occur; four checklist entries in the order min-length, symbol, upper-case, lower-case, each with its own condition; the verdict is the conjunction of the entries; the message follows the verdict |
| `SignUp.ValidateConfirmPassword` | src/SignUp.jsx:53-62 | invalid exactly when the confirmation is non-empty and differs from the password; a valid result has an empty message and checklist; an invalid one has `Passwords do not match.` and one unmet entry |
| `SignUp.SubmitGate` | src/SignUp.jsx:78 | the registration request is attempted exactly when the email, the password and the confirmation are all accepted |
| `SignUp.GateOpensForSomeCredentials` | src/SignUp.jsx:78-84 | some credentials pass the gate, so the registration request is reachable |
| `SignUp.EmptyConfirmationDoesNotBlock` | src/SignUp.jsx:53-61 | with a valid email and password, an empty confirmation passes the gate and shows no checklist |
| `SignUp.SignUpForm.constructor` | src/SignUp.jsx:5-13 | the state of the first render: empty inputs and messages, not loading, no error, `isValid` true |
| `SignUp.SignUpForm.SubmitEnabled` | src/SignUp.jsx:220 | the submit button is enabled exactly when `isValid` and not `loading` |
| `SignUp.Mount` | src/SignUp.jsx:110-119 | after the first render and the effect that follows it, the form is settled, the email and password messages are the failure messages, `isValid` is false, `loading` and `error` are false, and the submit button is disabled |
| `SignUp.SignUpForm.SetEmail` | src/SignUp.jsx:137 | the email input's change handler replaces the email |
| `SignUp.SignUpForm.SetPassword` | src/SignUp.jsx:164 | the password input's change handler replaces the password |
| `SignUp.SignUpForm.SetConfirm` | src/SignUp.jsx:194 | the confirmation input's change handler replaces the confirmation |
| `SignUp.SignUpForm.RunValidationEffect` | src/SignUp.jsx:110-119 | afterwards the three messages are the validators' messages and `isValid` is the conjunction of the three verdicts; inputs, `loading` and `error` are unchanged |
| `SignUp.SignUpForm.HandleLogin` | src/SignUp.jsx:64-107 | stores the three validators' messages and clears `error`; sends the request exactly when all three checks pass, then the form is loading; otherwise no request, `isValid` and `loading` false; from a settled state, sends exactly when `isValid` was true |
| `SignUp.SignUpForm.FinishRegistration` | src/SignUp.jsx:86-103 | stops loading; a thrown request or a truthy `error` in the reply sets `error` and puts the error text in the password message; otherwise the reply's message goes there |
| `SignUp.SignUpForm.FinishRegistrationAndRerender` | src/SignUp.jsx:86-119 | after the reply is handled and the effect runs again, the form is settled: the reply's text in the password message is replaced by the password validator's message, while `error` keeps the reply's outcome; the form stays mounted for this render only after a thrown request or a reply with a truthy `error` |
| `Profile.ValidateEmail` | src/Profile.jsx:41-53 | valid exactly when the email contains `@`, with the same message and one-entry checklist as the sign-up copy |
| `Profile.ValidatePassword` | src/Profile.jsx:55-75 | valid exactly under the same four conditions as the sign-up copy, with the same four-entry checklist in the same order |
| `Profile.ValidateConfirmPassword` | src/Profile.jsx:77-86 | invalid exactly when the confirmation is non-empty and differs from the password |
| `Profile.ValidatorsAgreeWithSignUp` | src/Profile.jsx:41-86 | each of this form's validators returns the same verdict, message and checklist as the sign-up copy on every input |
| `Profile.UpdateGate` | src/Profile.jsx:102 | the update gate is false for every combination of verdicts |
| `Profile.GateRefusesEveryAcceptedTriple` | src/Profile.jsx:93-102 | for every triple the sign-up gate lets through, this form's three validators all pass, and the update gate fed with those verdicts stays closed |
| `Profile.GateStaysClosedForAcceptedCredentials` | src/Profile.jsx:93-102 | one concrete triple that all three validators accept and the sign-up gate lets through, while the update gate fed with its verdicts stays closed |
| `Profile.ProfileForm.constructor` | src/Profile.jsx:7-15 | the initial state: empty inputs and messages, not loading, no error, `isValid` true |
| `Profile.ProfileForm.SubmitEnabled` | src/Profile.jsx:241 | the update button is enabled exactly when `isValid` and not `loading` |
| `Profile.ProfileForm.SetEmail` | src/Profile.jsx:198 | the email input's change handler replaces the email |
| `Profile.ProfileForm.SetPassword` | src/Profile.jsx:212 | the password input's change handler replaces the password |
| `Profile.ProfileForm.SetConfirm` | src/Profile.jsx:230 | the confirmation input's change handler replaces the confirmation |
| `Profile.ProfileForm.HandleUpdateProfile` | src/Profile.jsx:88-133 | whatever the inputs: no request is sent; the three messages are the validators' messages; the form ends with `isValid`, `loading` and `error` all false, so the update button is disabled |

## Left out

- All network requests and their responses are left out: registration, fetching the user's email, the profile update and account deletion. The sign-up reply is a parameter of `FinishRegistration`. The fetched email arrives through `SetEmail`.
- `SignUp.SignUpForm.FinishRegistration`: does not model storing the returned token in `localStorage`, logging it to the console or navigating to the subscriptions page. All three are browser side effects.
- `SignUp.SignUpForm.FinishRegistration`: the reply's `error` field is modelled as a string, with the empty string standing for an absent or falsy field. Other JavaScript values are not modelled.
- `Profile.ProfileForm.HandleUpdateProfile`: states only the final state. The moment during the handler when `loading` is true is not observable here, because no `await` is ever reached.
- Rendering is left out: the checklists, colours, class names, the delete-confirmation modal and its open flag. The button's disabled rule appears only as `SubmitEnabled`.
- The login form, the menu, the podcast listing, the subscriptions page and the router hold no validation logic. They are not part of this model. The listing has no pagination, page-size or search-filter logic to model.
- Password length is counted in Unicode scalar values. JavaScript's `length` counts UTF-16 code units, so the two differ for characters outside the Basic Multilingual Plane.
- Regular-expression semantics are not modelled. Each character class is written out as an explicit ASCII set.
- React's batching of state updates is not modelled. The handlers' setters are applied in program order. The sign-up effect runs after every render; the model gives it as `RunValidationEffect`, to be called after each step, and composes it explicitly only after mounting and after the reply handler.
