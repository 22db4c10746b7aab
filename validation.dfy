/** What the sign-up and profile forms share: the shape of a validator's
    result, the character classes of the password rules, and reference
    definitions of which credentials the rules accept. */
module Validation {

  /** One line of the checklist shown under an input: its label (`text`; `label` is a Dafny keyword) and whether it is met. */
  datatype Requirement = Requirement(text: string, met: bool)

  /** What every validator returns: a message, the checklist and the verdict. */
  datatype Verdict = Verdict(message: string, requirements: seq<Requirement>, isValid: bool)

  /** The minimum password length of the rule "Minimum 8 characters". */
  const MinPasswordLength: nat := 8

  /** The three single-character classes the password rules test for:
      `[!@#$%&*()[\]]`, `[A-Z]` and `[a-z]`. */
  datatype CharClass = Symbol | Uppercase | Lowercase

  predicate InClass(cls: CharClass, c: char)
  {
    match cls
    case Symbol =>
      c == '!' || c == '@' || c == '#' || c == '$' || c == '%' || c == '&' ||
      c == '*' || c == '(' || c == ')' || c == '[' || c == ']'
    case Uppercase => 'A' <= c <= 'Z'
    case Lowercase => 'a' <= c <= 'z'
  }

  /** `/[...]/.test(s)` for a pattern that is a single character class:
      a scan for the first character of `s` in the class. */
  function Test(cls: CharClass, s: string): (found: bool)
    ensures found <==> exists i :: 0 <= i < |s| && InClass(cls, s[i])
  {
    if s == [] then false
    else if InClass(cls, s[0]) then true
    else
      var rest := Test(cls, s[1..]);
      assert forall i :: 0 < i < |s| ==> s[i] == s[1..][i - 1];
      rest
  }

  /** `s.includes(c)` for a one-character needle: a scan for `c`. */
  function Includes(s: string, c: char): (found: bool)
    ensures found <==> c in s
  {
    if s == [] then false
    else if s[0] == c then true
    else
      var rest := Includes(s[1..], c);
      assert s == [s[0]] + s[1..];
      rest
  }

  /** Every entry of a checklist is met. */
  predicate AllMet(reqs: seq<Requirement>)
  {
    forall i :: 0 <= i < |reqs| ==> reqs[i].met
  }

  /** A verdict is consistent when it is valid exactly when its whole checklist is met. */
  predicate Consistent(v: Verdict)
  {
    v.isValid == AllMet(v.requirements)
  }

  // Reference definitions of the credential rules, stated over positions of the strings.

  predicate HasCharIn(cls: CharClass, s: string)
  {
    exists i :: 0 <= i < |s| && InClass(cls, s[i])
  }

  predicate EmailAccepted(email: string)
  {
    exists i :: 0 <= i < |email| && email[i] == '@'
  }

  predicate PasswordAccepted(password: string)
  {
    |password| >= MinPasswordLength &&
    HasCharIn(Symbol, password) && HasCharIn(Uppercase, password) && HasCharIn(Lowercase, password)
  }

  /** An empty confirmation is accepted whatever the password; otherwise it must equal it. */
  predicate ConfirmationAccepted(password: string, confirmation: string)
  {
    confirmation == [] || confirmation == password
  }

  predicate CredentialsAccepted(email: string, password: string, confirmation: string)
  {
    EmailAccepted(email) && PasswordAccepted(password) && ConfirmationAccepted(password, confirmation)
  }

  /** Appending characters never takes away a character the class test found. */
  lemma {:induction false} HasCharInExtends(cls: CharClass, s: string, t: string)
    requires HasCharIn(cls, s)
    ensures HasCharIn(cls, s + t)
  {
    var i :| 0 <= i < |s| && InClass(cls, s[i]);
    assert (s + t)[i] == s[i];
  }

  /** Typing more characters after an accepted password keeps it accepted:
      every password rule is a lower bound or an "at least one" test. */
  lemma {:induction false} PasswordAcceptedExtends(password: string, more: string)
    requires PasswordAccepted(password)
    ensures PasswordAccepted(password + more)
  {
    HasCharInExtends(Symbol, password, more);
    HasCharInExtends(Uppercase, password, more);
    HasCharInExtends(Lowercase, password, more);
  }

  /** Typing more characters after an accepted email keeps it accepted. */
  lemma {:induction false} EmailAcceptedExtends(email: string, more: string)
    requires EmailAccepted(email)
    ensures EmailAccepted(email + more)
  {
    var i :| 0 <= i < |email| && email[i] == '@';
    assert (email + more)[i] == '@';
  }
}
