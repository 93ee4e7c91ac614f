/** The validation rules of the auth forms, as the issues a schema reports:
    each issue names the field it is shown under and its message. */
module Forms {

  datatype Field = Email | Password | ConfirmPassword

  datatype Issue = Issue(field: Field, message: string)

  const MinPasswordLength := 6
  const TooShort := "Password must be at least 6 characters"
  const Mismatch := "Passwords don't match"
  const InvalidEmail := "Please enter a valid email address"

  /** `z.string().min(6, ...)` on one field. */
  function MinLengthIssues(field: Field, s: string): seq<Issue>
  {
    if |s| < MinPasswordLength then [Issue(field, TooShort)] else []
  }

  /** `z.string().email(...)`: the e-mail predicate itself belongs to the
      validation library, so its verdict is an input here. */
  function EmailIssues(emailOk: bool): seq<Issue>
  {
    if emailOk then [] else [Issue(Email, InvalidEmail)]
  }

  /** A `{ password, confirmPassword }` object, both at least six characters,
      refined with "the two are equal", the refinement's issue reported under
      `confirmPassword`. */
  function PasswordPairIssues(password: string, confirmPassword: string): (r: seq<Issue>)
    ensures r == [] <==>
              |password| >= MinPasswordLength && |confirmPassword| >= MinPasswordLength && password == confirmPassword
    ensures Issue(ConfirmPassword, Mismatch) in r <==> password != confirmPassword
    ensures Issue(Password, TooShort) in r <==> |password| < MinPasswordLength
    ensures Issue(ConfirmPassword, TooShort) in r <==> |confirmPassword| < MinPasswordLength
    ensures forall i :: i in r ==> i.field != Email
  {
    MinLengthIssues(Password, password)
      + MinLengthIssues(ConfirmPassword, confirmPassword)
      + (if password != confirmPassword then [Issue(ConfirmPassword, Mismatch)] else [])
  }
}
