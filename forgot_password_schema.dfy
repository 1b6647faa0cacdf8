/** `forgotPasswordSchema`: the email bounds of the reset request. */
module ForgotPasswordSchema {
  import opened Zod
  import LoginSchema

  const EmailInvalid := "Enter your valid email address"
  /** The too-long message, as the schema spells it. */
  const EmailTooLong := "Email your valid email address"

  function EmailIssues(email: string, isEmail: string -> bool): (r: seq<Issue>)
    ensures r == [] <==> isEmail(email) && 5 <= |email| <= 50
    ensures Issue("email", EmailTooLong) in r <==> |email| > 50
    ensures forall i :: i in r && i.message != EmailTooLong ==> i == Issue("email", EmailInvalid)
  {
    EmailFormat(email, isEmail, "email", EmailInvalid)
    + MinLength(email, 5, "email", EmailInvalid)
    + MaxLength(email, 50, "email", EmailTooLong)
  }

  predicate Accepts(email: string, isEmail: string -> bool)
  {
    EmailIssues(email, isEmail) == []
  }

  /** The same emails pass here and in the login form, though the too-long
      messages differ. */
  lemma SameEmailsAsLogin(email: string, isEmail: string -> bool)
    ensures Accepts(email, isEmail) <==> LoginSchema.EmailIssues(email, isEmail) == []
    ensures |email| > 50 ==> EmailIssues(email, isEmail) != LoginSchema.EmailIssues(email, isEmail)
  {
    if |email| > 50 {
      assert Issue("email", EmailTooLong) in EmailIssues(email, isEmail);
      assert Issue("email", EmailTooLong) !in LoginSchema.EmailIssues(email, isEmail);
    }
  }
}
