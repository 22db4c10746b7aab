/** The profile-update form: its own copies of the three credential validators
    and the gate in front of the update request, which reads `.isValid` off
    values that are already booleans and therefore never opens. */
module Profile {
  import Js
  import opened Validation
  import SignUp

  const EmailValidMessage := "Email is valid"
  const EmailInvalidMessage := "Email must contain @ symbol."
  const AtSymbolLabel := "Must contain @ symbol"

  const PasswordValidMessage := "Password is valid"
  const PasswordInvalidMessage := "Please fix password issues."
  const MinLengthLabel := "Minimum 8 characters"
  const SymbolLabel := "At least one symbol"
  const UppercaseLabel := "At least one uppercase letter"
  const LowercaseLabel := "At least one lowercase letter"

  const MismatchMessage := "Passwords do not match."
  const MustMatchLabel := "Passwords must match"

  /** This form's `validateEmail`. */
  function ValidateEmail(email: string): (v: Verdict)
    ensures v.isValid <==> EmailAccepted(email)
    ensures v.message == if v.isValid then EmailValidMessage else EmailInvalidMessage
    ensures v.requirements == [Requirement(AtSymbolLabel, v.isValid)]
    ensures Consistent(v)
  {
    var hasAtSymbol := Includes(email, '@');
    var requirements := [Requirement(AtSymbolLabel, hasAtSymbol)];
    assert requirements[0].met == hasAtSymbol;  // the entry AllMet quantifies over
    Verdict(if hasAtSymbol then EmailValidMessage else EmailInvalidMessage, requirements, hasAtSymbol)
  }

  /** This form's `validatePassword`. */
  function ValidatePassword(password: string): (v: Verdict)
    ensures v.isValid <==> PasswordAccepted(password)
    ensures |v.requirements| == 4
    ensures v.requirements[0] == Requirement(MinLengthLabel, |password| >= MinPasswordLength)
    ensures v.requirements[1] == Requirement(SymbolLabel, HasCharIn(Symbol, password))
    ensures v.requirements[2] == Requirement(UppercaseLabel, HasCharIn(Uppercase, password))
    ensures v.requirements[3] == Requirement(LowercaseLabel, HasCharIn(Lowercase, password))
    ensures v.message == if v.isValid then PasswordValidMessage else PasswordInvalidMessage
    ensures Consistent(v)
  {
    var hasMinLength := |password| >= MinPasswordLength;
    var hasSymbol := Test(Symbol, password);
    var hasUppercase := Test(Uppercase, password);
    var hasLowercase := Test(Lowercase, password);
    var requirements := [
      Requirement(MinLengthLabel, hasMinLength),
      Requirement(SymbolLabel, hasSymbol),
      Requirement(UppercaseLabel, hasUppercase),
      Requirement(LowercaseLabel, hasLowercase)
    ];
    var isValid := hasMinLength && hasSymbol && hasUppercase && hasLowercase;
    assert isValid == AllMet(requirements) by {
      if !isValid {
        var i := if !hasMinLength then 0 else if !hasSymbol then 1 else if !hasUppercase then 2 else 3;
        assert !requirements[i].met;
      }
    }
    Verdict(if isValid then PasswordValidMessage else PasswordInvalidMessage, requirements, isValid)
  }

  /** This form's `validateConfirmPassword`. */
  function ValidateConfirmPassword(password: string, confirmation: string): (v: Verdict)
    ensures v.isValid <==> ConfirmationAccepted(password, confirmation)
    ensures !v.isValid <==> confirmation != "" && confirmation != password
    ensures v.isValid ==> v.message == "" && v.requirements == []
    ensures !v.isValid ==> v.message == MismatchMessage && v.requirements == [Requirement(MustMatchLabel, false)]
    ensures Consistent(v)
  {
    if Js.Truthy(Js.Str(confirmation)) && confirmation != password then
      var requirements := [Requirement(MustMatchLabel, false)];
      assert !requirements[0].met;  // the entry AllMet quantifies over
      Verdict(MismatchMessage, requirements, false)
    else
      Verdict("", [], true)
  }

  /** The two forms' copies of the validators return the same verdict,
      message and checklist on every input. */
  lemma ValidatorsAgreeWithSignUp(email: string, password: string, confirmation: string)
    ensures ValidateEmail(email) == SignUp.ValidateEmail(email)
    ensures ValidatePassword(password) == SignUp.ValidatePassword(password)
    ensures ValidateConfirmPassword(password, confirmation) == SignUp.ValidateConfirmPassword(password, confirmation)
  {
  }

  /** The condition in front of the update request. The destructuring binds the
      three verdicts as booleans, and the condition then reads `.isValid` off each
      of them, which is `undefined`: the conjunction is falsy for every input. */
  function UpdateGate(isEmailValid: bool, isPasswordValid: bool, isConfirmPasswordValid: bool): (open: bool)
    ensures !open
  {
    Js.Truthy(Js.ReadIsValid(Js.Bool(isEmailValid))) &&
    Js.Truthy(Js.ReadIsValid(Js.Bool(isPasswordValid))) &&
    Js.Truthy(Js.ReadIsValid(Js.Bool(isConfirmPasswordValid)))
  }

  /** Every credential triple the sign-up form would send is refused by the
      update gate, fed with this form's own verdicts for the same triple. */
  lemma GateRefusesEveryAcceptedTriple(email: string, password: string, confirmation: string)
    requires CredentialsAccepted(email, password, confirmation)
    ensures SignUp.SubmitGate(email, password, confirmation)
    ensures ValidateEmail(email).isValid && ValidatePassword(password).isValid
    ensures ValidateConfirmPassword(password, confirmation).isValid
    ensures !UpdateGate(ValidateEmail(email).isValid, ValidatePassword(password).isValid,
                        ValidateConfirmPassword(password, confirmation).isValid)
  {
  }

  /** Such a triple exists: the update request stays unsent for credentials
      that every validator accepts and that the sign-up form sends. */
  lemma GateStaysClosedForAcceptedCredentials()
    ensures ValidateEmail("fan@podcasts").isValid
    ensures ValidatePassword("Listen2me!").isValid
    ensures ValidateConfirmPassword("Listen2me!", "Listen2me!").isValid
    ensures SignUp.SubmitGate("fan@podcasts", "Listen2me!", "Listen2me!")
    ensures !UpdateGate(ValidateEmail("fan@podcasts").isValid, ValidatePassword("Listen2me!").isValid,
                        ValidateConfirmPassword("Listen2me!", "Listen2me!").isValid)
  {
    SignUp.GateOpensForSomeCredentials();
    GateRefusesEveryAcceptedTriple("fan@podcasts", "Listen2me!", "Listen2me!");
  }

  /** The state of the profile form component. */
  class ProfileForm {
    var email: string
    var password: string
    var confirmPassword: string
    var emailMessage: string
    var passwordMessage: string
    var confirmPasswordMessage: string
    var isValid: bool
    var loading: bool
    var error: bool

    /** The component's initial state; `isValid` starts out true. */
    constructor ()
      ensures email == "" && password == "" && confirmPassword == ""
      ensures emailMessage == "" && passwordMessage == "" && confirmPasswordMessage == ""
      ensures isValid && !loading && !error
    {
      email, password, confirmPassword := "", "", "";
      emailMessage, passwordMessage, confirmPasswordMessage := "", "", "";
      isValid := true;
      loading := false;
      error := false;
    }

    /** The update button is enabled (it is disabled when `!isValid || loading`). */
    predicate SubmitEnabled()
      reads this
    {
      isValid && !loading
    }

    /** The email input's change handler; the email fetched for the signed-in
        user arrives through the same setter. */
    method SetEmail(s: string)
      modifies this`email
      ensures email == s
    {
      email := s;
    }

    /** The password input's change handler. */
    method SetPassword(s: string)
      modifies this`password
      ensures password == s
    {
      password := s;
    }

    /** The confirmation input's change handler. */
    method SetConfirm(s: string)
      modifies this`confirmPassword
      ensures confirmPassword == s
    {
      confirmPassword := s;
    }

    /** The submit handler: it validates and stores the three messages, but the
        gate never opens, so no request is sent and the form ends with `isValid`
        cleared. This form has no effect that sets `isValid` again, so the update
        button stays disabled from then on. */
    method HandleUpdateProfile() returns (sent: bool)
      modifies this
      ensures !sent
      ensures !isValid && !loading && !error
      ensures !SubmitEnabled()
      ensures passwordMessage == ValidatePassword(password).message
      ensures emailMessage == ValidateEmail(email).message
      ensures confirmPasswordMessage == ValidateConfirmPassword(password, confirmPassword).message
      ensures email == old(email) && password == old(password) && confirmPassword == old(confirmPassword)
    {
      loading := true;
      error := false;

      var passwordVerdict := ValidatePassword(password);
      passwordMessage := passwordVerdict.message;
      var isPasswordValid := passwordVerdict.isValid;
      var emailVerdict := ValidateEmail(email);
      emailMessage := emailVerdict.message;
      var isEmailValid := emailVerdict.isValid;
      var confirmVerdict := ValidateConfirmPassword(password, confirmPassword);
      confirmPasswordMessage := confirmVerdict.message;
      var isConfirmPasswordValid := confirmVerdict.isValid;

      if UpdateGate(isEmailValid, isPasswordValid, isConfirmPasswordValid) {
        assert false;
      } else {
        isValid := false;
        loading := false;
        sent := false;
      }
    }
  }
}
