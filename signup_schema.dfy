/** `signupSchema`: name, email and password bounds, and a refinement that
    the confirmation repeats the password. */
module SignupSchema {
  import opened Zod

  datatype SignupForm = SignupForm(name: string, email: string, password: string, confirmPassword: string)

  const NameTooShort := "Name should be atleast 3 characters long"
  const NameTooLong := "Name cannot exceed 30 characters"
  const EmailInvalid := "Enter a valid email address"
  const EmailTooLong := "Email cannot exceed 50 characters"
  const PasswordTooShort := "Password should be atleast 6 characters long"
  const PasswordTooLong := "Password cannot exceed 30 characters"
  const Mismatch := "Passwords do not match"

  function NameIssues(name: string): (r: seq<Issue>)
    ensures r == [] <==> 3 <= |name| <= 30
    ensures Issue("name", NameTooShort) in r <==> |name| < 3
    ensures Issue("name", NameTooLong) in r <==> |name| > 30
  {
    MinLength(name, 3, "name", NameTooShort) + MaxLength(name, 30, "name", NameTooLong)
  }

  function EmailIssues(email: string, isEmail: string -> bool): (r: seq<Issue>)
    ensures r == [] <==> isEmail(email) && 3 <= |email| <= 50
    ensures forall i :: i in r ==> i.path == "email" && i.message in {EmailInvalid, EmailTooLong}
    ensures Issue("email", EmailTooLong) in r <==> |email| > 50
  {
    EmailFormat(email, isEmail, "email", EmailInvalid)
    + MinLength(email, 3, "email", EmailInvalid)
    + MaxLength(email, 50, "email", EmailTooLong)
  }

  function PasswordIssues(password: string): (r: seq<Issue>)
    ensures r == [] <==> 6 <= |password| <= 30
    ensures Issue("password", PasswordTooShort) in r <==> |password| < 6
    ensures Issue("password", PasswordTooLong) in r <==> |password| > 30
  {
    MinLength(password, 6, "password", PasswordTooShort) + MaxLength(password, 30, "password", PasswordTooLong)
  }

  /** The `refine`: reported at `confirmPassword`, which has no bound of its own. */
  function MatchIssues(form: SignupForm): (r: seq<Issue>)
    ensures r == [] <==> form.password == form.confirmPassword
    ensures r != [] ==> r == [Issue("confirmPassword", Mismatch)]
  {
    if form.password == form.confirmPassword then [] else [Issue("confirmPassword", Mismatch)]
  }

  /** Every issue the schema reports for `form`; their order is not modelled. */
  function Issues(form: SignupForm, isEmail: string -> bool): (r: seq<Issue>)
    ensures r == [] <==> 3 <= |form.name| <= 30 && isEmail(form.email) && 3 <= |form.email| <= 50
                         && 6 <= |form.password| <= 30 && form.password == form.confirmPassword
    ensures forall i :: i in r && i.path == "confirmPassword" ==> i.message == Mismatch
    ensures Issue("confirmPassword", Mismatch) in r <==> form.password != form.confirmPassword
  {
    NameIssues(form.name) + EmailIssues(form.email, isEmail) + PasswordIssues(form.password) + MatchIssues(form)
  }

  predicate Accepts(form: SignupForm, isEmail: string -> bool)
  {
    Issues(form, isEmail) == []
  }

  /** Lengths 3 and 30 pass the name bounds and 2 and 31 fail; lengths 6 and
      30 pass the password bounds and 5 and 31 fail. */
  lemma Boundaries(s: string)
    ensures |s| in {3, 30} ==> NameIssues(s) == []
    ensures |s| in {2, 31} ==> NameIssues(s) != []
    ensures |s| in {6, 30} ==> PasswordIssues(s) == []
    ensures |s| in {5, 31} ==> PasswordIssues(s) != []
  {
  }
}
