/** `resetPasswordSchema`: the password bounds of the reset form. */
module ResetPasswordSchema {
  import opened Zod
  import SignupSchema

  const PasswordTooShort := "Password should be atleast 6 characters long"
  /** The too-long message ends in a space. */
  const PasswordTooLong := "Password cannot exceed 30 characters "

  function PasswordIssues(password: string): (r: seq<Issue>)
    ensures r == [] <==> 6 <= |password| <= 30
    ensures Issue("password", PasswordTooShort) in r <==> |password| < 6
    ensures Issue("password", PasswordTooLong) in r <==> |password| > 30
  {
    MinLength(password, 6, "password", PasswordTooShort) + MaxLength(password, 30, "password", PasswordTooLong)
  }

  predicate Accepts(password: string)
  {
    PasswordIssues(password) == []
  }

  /** The same passwords pass here and in the signup form; only the trailing
      space of the too-long message tells the two apart. */
  lemma SameAsSignup(password: string)
    ensures Accepts(password) <==> SignupSchema.PasswordIssues(password) == []
    ensures PasswordTooLong == SignupSchema.PasswordTooLong + " "
    ensures |password| > 30 ==> PasswordIssues(password) != SignupSchema.PasswordIssues(password)
  {
    if |password| > 30 {
      assert PasswordTooLong != SignupSchema.PasswordTooLong;
      assert Issue("password", PasswordTooLong) in PasswordIssues(password);
    }
  }

  lemma Boundaries(password: string)
    ensures |password| in {6, 30} ==> Accepts(password)
    ensures |password| in {5, 31} ==> !Accepts(password)
  {
  }
}
