/** The sign-up form: its three credential validators, the gate in front of
    the registration request, and the form state that the submit handler and
    the re-validation effect update. */
module SignUp {
  import Js
  import opened Validation

  const EmailValidMessage := "Email is valid"
  const EmailInvalidMessage := "Email must contain @ symbol."
  const AtSymbolLabel := "Must contain @ symbol"

  const PasswordValidMessage := "Password is valid"
  const PasswordInvalidMessage := "Please fix password issues."
  const MinLengthLabel := "Minimum 8 characters"
  const SymbolLabel := "At least one symbol"
  const UppercaseLabel := "At least one uppercase letter"
  const LowercaseLabel := "At least one lowercase letter"

  const MismatchMessage := "Passwords do not match."
  const MustMatchLabel := "Passwords must match"

  /** `validateEmail`: the email is valid exactly when it contains `@`. */
  function ValidateEmail(email: string): (v: Verdict)
    ensures v.isValid <==> EmailAccepted(email)
    ensures v.message == if v.isValid then EmailValidMessage else EmailInvalidMessage
    ensures v.requirements == [Requirement(AtSymbolLabel, v.isValid)]
    ensures Consistent(v)
  {
    var hasAtSymbol := Includes(email, '@');
    var requirements := [Requirement(AtSymbolLabel, hasAtSymbol)];
    assert requirements[0].met == hasAtSymbol;  // the entry AllMet quantifies over
    Verdict(if hasAtSymbol then EmailValidMessage else EmailInvalidMessage, requirements, hasAtSymbol)
  }

  /** `validatePassword`: four requirements in a fixed order, valid when all are met. */
  function ValidatePassword(password: string): (v: Verdict)
    ensures v.isValid <==> PasswordAccepted(password)
    ensures |v.requirements| == 4
    ensures v.requirements[0] == Requirement(MinLengthLabel, |password| >= MinPasswordLength)
    ensures v.requirements[1] == Requirement(SymbolLabel, HasCharIn(Symbol, password))
    ensures v.requirements[2] == Requirement(UppercaseLabel, HasCharIn(Uppercase, password))
    ensures v.requirements[3] == Requirement(LowercaseLabel, HasCharIn(Lowercase, password))
    ensures v.message == if v.isValid then PasswordValidMessage else PasswordInvalidMessage
    ensures Consistent(v)
  {
    var hasMinLength := |password| >= MinPasswordLength;
    var hasSymbol := Test(Symbol, password);
    var hasUppercase := Test(Uppercase, password);
    var hasLowercase := Test(Lowercase, password);
    var requirements := [
      Requirement(MinLengthLabel, hasMinLength),
      Requirement(SymbolLabel, hasSymbol),
      Requirement(UppercaseLabel, hasUppercase),
      Requirement(LowercaseLabel, hasLowercase)
    ];
    var isValid := hasMinLength && hasSymbol && hasUppercase && hasLowercase;
    assert isValid == AllMet(requirements) by {
      if !isValid {
        var i := if !hasMinLength then 0 else if !hasSymbol then 1 else if !hasUppercase then 2 else 3;
        assert !requirements[i].met;
      }
    }
    Verdict(if isValid then PasswordValidMessage else PasswordInvalidMessage, requirements, isValid)
  }

  /** `validateConfirmPassword`: fails only for a non-empty (truthy) confirmation
      that differs from the password. */
  function ValidateConfirmPassword(password: string, confirmation: string): (v: Verdict)
    ensures v.isValid <==> ConfirmationAccepted(password, confirmation)
    ensures !v.isValid <==> confirmation != "" && confirmation != password
    ensures v.isValid ==> v.message == "" && v.requirements == []
    ensures !v.isValid ==> v.message == MismatchMessage && v.requirements == [Requirement(MustMatchLabel, false)]
    ensures Consistent(v)
  {
    if Js.Truthy(Js.Str(confirmation)) && confirmation != password then
      var requirements := [Requirement(MustMatchLabel, false)];
      assert !requirements[0].met;  // the entry AllMet quantifies over
      Verdict(MismatchMessage, requirements, false)
    else
      Verdict("", [], true)
  }

  /** The condition in front of the registration request: all three validators pass. */
  function SubmitGate(email: string, password: string, confirmation: string): (open: bool)
    ensures open <==> CredentialsAccepted(email, password, confirmation)
  {
    var isPasswordValid := ValidatePassword(password).isValid;
    var isEmailValid := ValidateEmail(email).isValid;
    var isConfirmPasswordValid := ValidateConfirmPassword(password, confirmation).isValid;
    isPasswordValid && isEmailValid && isConfirmPasswordValid
  }

  /** A credential triple the gate lets through: so the registration request is reachable. */
  lemma GateOpensForSomeCredentials()
    ensures SubmitGate("fan@podcasts", "Listen2me!", "Listen2me!")
  {
    var p := "Listen2me!";
    assert InClass(Symbol, p[9]) && InClass(Uppercase, p[0]) && InClass(Lowercase, p[1]);
    assert "fan@podcasts"[3] == '@';
  }

  /** An empty confirmation never blocks the gate: with a valid email and password
      the request is sent even though nothing was typed into the confirmation box. */
  lemma EmptyConfirmationDoesNotBlock(email: string, password: string)
    requires ValidateEmail(email).isValid && ValidatePassword(password).isValid
    ensures SubmitGate(email, password, "")
    ensures ValidateConfirmPassword(password, "").requirements == []
  {
  }

  /** What the registration request came back with. The response's `error` field
      is given as a string, the empty string standing for an absent or falsy one. */
  datatype RegisterReply =
    | Responded(error: string, message: string)
    | Threw(message: string)

  /** The state of the sign-up form component. */
  class SignUpForm {
    var email: string
    var password: string
    var confirmPassword: string
    var error: bool
    var passwordMessage: string
    var emailMessage: string
    var confirmPasswordMessage: string
    var loading: bool
    var isValid: bool

    /** The state of the first render. `isValid` starts out true, but the
        validation effect runs right after that render (see `Mount`). */
    constructor ()
      ensures email == "" && password == "" && confirmPassword == ""
      ensures !error && !loading && isValid
      ensures passwordMessage == "" && emailMessage == "" && confirmPasswordMessage == ""
    {
      email, password, confirmPassword := "", "", "";
      error := false;
      passwordMessage, emailMessage, confirmPasswordMessage := "", "", "";
      loading := false;
      isValid := true;
    }

    /** The three messages and `isValid` agree with the validators on the current inputs. */
    predicate Settled()
      reads this
    {
      emailMessage == ValidateEmail(email).message &&
      passwordMessage == ValidatePassword(password).message &&
      confirmPasswordMessage == ValidateConfirmPassword(password, confirmPassword).message &&
      isValid == SubmitGate(email, password, confirmPassword)
    }

    /** The submit button is enabled (it is disabled when `!isValid || loading`). */
    predicate SubmitEnabled()
      reads this
    {
      isValid && !loading
    }

    /** The email input's change handler. */
    method SetEmail(s: string)
      modifies this`email
      ensures email == s
    {
      email := s;
    }

    /** The password input's change handler. */
    method SetPassword(s: string)
      modifies this`password
      ensures password == s
    {
      password := s;
    }

    /** The confirmation input's change handler. */
    method SetConfirm(s: string)
      modifies this`confirmPassword
      ensures confirmPassword == s
    {
      confirmPassword := s;
    }

    /** The effect that re-runs the three validators and stores their messages
        and the conjunction of their verdicts. Its dependency list names the
        validators, which are recreated on every render, so it runs after every
        render: after mounting, after each input change and after each handler. */
    method RunValidationEffect()
      modifies this
      ensures Settled()
      ensures isValid <==> CredentialsAccepted(email, password, confirmPassword)
      ensures email == old(email) && password == old(password) && confirmPassword == old(confirmPassword)
      ensures error == old(error) && loading == old(loading)
    {
      var emailVerdict := ValidateEmail(email);
      var passwordVerdict := ValidatePassword(password);
      var confirmVerdict := ValidateConfirmPassword(password, confirmPassword);
      emailMessage := emailVerdict.message;
      passwordMessage := passwordVerdict.message;
      confirmPasswordMessage := confirmVerdict.message;
      isValid := emailVerdict.isValid && passwordVerdict.isValid && confirmVerdict.isValid;
    }

    /** The submit handler up to the `await` of the registration request: it
        validates, stores the messages and either sends the request (`sent`,
        leaving the form loading) or gives up with `isValid` cleared. */
    method HandleLogin() returns (sent: bool)
      modifies this
      ensures sent <==> CredentialsAccepted(email, password, confirmPassword)
      ensures email == old(email) && password == old(password) && confirmPassword == old(confirmPassword)
      ensures !error
      ensures passwordMessage == ValidatePassword(password).message
      ensures emailMessage == ValidateEmail(email).message
      ensures confirmPasswordMessage == ValidateConfirmPassword(password, confirmPassword).message
      ensures sent ==> loading && isValid == old(isValid)
      ensures !sent ==> !loading && !isValid && Settled()
      ensures old(Settled()) ==> (sent <==> old(isValid))
    {
      loading := true;
      error := false;

      var passwordVerdict := ValidatePassword(password);
      passwordMessage := passwordVerdict.message;
      var emailVerdict := ValidateEmail(email);
      emailMessage := emailVerdict.message;
      var confirmVerdict := ValidateConfirmPassword(password, confirmPassword);
      confirmPasswordMessage := confirmVerdict.message;

      if passwordVerdict.isValid && emailVerdict.isValid && confirmVerdict.isValid {
        sent := true;
      } else {
        isValid := false;
        loading := false;
        sent := false;
      }
    }

    /** The rest of the submit handler, once the registration request has
        answered or thrown: it reports the outcome and stops loading. */
    method FinishRegistration(reply: RegisterReply)
      requires loading
      modifies this
      ensures !loading
      ensures error == (reply.Threw? || reply.error != "" || old(error))
      ensures passwordMessage ==
        match reply
        case Threw(m) => m
        case Responded(e, m) => if e != "" then e else m
      ensures email == old(email) && password == old(password) && confirmPassword == old(confirmPassword)
      ensures emailMessage == old(emailMessage) && confirmPasswordMessage == old(confirmPasswordMessage)
      ensures isValid == old(isValid)
    {
      match reply
      case Responded(e, m) =>
        if Js.Truthy(Js.Str(e)) {
          error := true;
          passwordMessage := e;
        } else {
          passwordMessage := m;
        }
        loading := false;
      case Threw(m) =>
        error := true;
        passwordMessage := m;
        loading := false;
    }

    /** The reply handled, then the effect that runs after the render it causes:
        the reply's text in `passwordMessage` is replaced by the password
        validator's message. The form stays mounted for that render only after a
        thrown request or a reply with a truthy `error`; after any other reply
        the source navigates away and the form unmounts. */
    method FinishRegistrationAndRerender(reply: RegisterReply)
      requires loading
      modifies this
      ensures !loading && Settled()
      ensures passwordMessage == ValidatePassword(password).message
      ensures error == (reply.Threw? || reply.error != "" || old(error))
      ensures email == old(email) && password == old(password) && confirmPassword == old(confirmPassword)
    {
      FinishRegistration(reply);
      RunValidationEffect();
    }
  }

  /** Mounting the form: the first render, then the effect that runs after it.
      The empty email fails its check, so `isValid` is cleared at once and the
      submit button is disabled until the inputs are accepted. */
  method Mount() returns (form: SignUpForm)
    ensures fresh(form)
    ensures form.email == "" && form.password == "" && form.confirmPassword == ""
    ensures form.Settled() && !form.isValid && !form.SubmitEnabled()
    ensures !form.loading && !form.error
    ensures form.emailMessage == EmailInvalidMessage && form.passwordMessage == PasswordInvalidMessage
    ensures form.confirmPasswordMessage == ""
  {
    form := new SignUpForm();
    form.RunValidationEffect();
  }
}
