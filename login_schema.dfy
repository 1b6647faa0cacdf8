/** `loginSchema`: email and password bounds. */
module LoginSchema {
  import opened Zod
  import SignupSchema

  datatype LoginForm = LoginForm(email: string, password: string)

  const EmailInvalid := "Enter your valid email address"
  const PasswordTooShort := "Password should be atleast 6 characters long"
  const PasswordTooLong := "Password cannot exceed 50 characters"

  /** All three email checks share one message. */
  function EmailIssues(email: string, isEmail: string -> bool): (r: seq<Issue>)
    ensures r == [] <==> isEmail(email) && 5 <= |email| <= 50
    ensures forall i :: i in r ==> i == Issue("email", EmailInvalid)
  {
    EmailFormat(email, isEmail, "email", EmailInvalid)
    + MinLength(email, 5, "email", EmailInvalid)
    + MaxLength(email, 50, "email", EmailInvalid)
  }

  function PasswordIssues(password: string): (r: seq<Issue>)
    ensures r == [] <==> 6 <= |password| <= 50
    ensures Issue("password", PasswordTooShort) in r <==> |password| < 6
    ensures Issue("password", PasswordTooLong) in r <==> |password| > 50
  {
    MinLength(password, 6, "password", PasswordTooShort) + MaxLength(password, 50, "password", PasswordTooLong)
  }

  function Issues(form: LoginForm, isEmail: string -> bool): (r: seq<Issue>)
    ensures r == [] <==> isEmail(form.email) && 5 <= |form.email| <= 50 && 6 <= |form.password| <= 50
  {
    EmailIssues(form.email, isEmail) + PasswordIssues(form.password)
  }

  predicate Accepts(form: LoginForm, isEmail: string -> bool)
  {
    Issues(form, isEmail) == []
  }

  /** A password of 31 to 50 characters logs in but cannot sign up. */
  lemma LongPasswordLoginOnly(password: string)
    requires 31 <= |password| <= 50
    ensures PasswordIssues(password) == []
    ensures SignupSchema.PasswordIssues(password) == [Issue("password", SignupSchema.PasswordTooLong)]
  {
  }
}
