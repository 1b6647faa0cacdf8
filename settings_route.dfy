/** The settings route: GET looks the session user up by id and answers with
    four of the user's columns. */
module SettingsRoute {
  import opened Common
  import opened Records

  /** The `select: { id, name, email, emailVerified }` projection. */
  datatype UserSettings = UserSettings(id: UserId, name: string, email: string, emailVerified: bool)

  /** The exception a failing lookup raises: an `Error` with its message, or
      any other thrown value. */
  datatype StoreError = ErrorWithMessage(message: string) | OtherThrown

  function Project(u: User): (s: UserSettings)
    ensures s.id == u.id && s.name == u.name && s.email == u.email && s.emailVerified == u.emailVerified
  {
    UserSettings(u.id, u.name, u.email, u.emailVerified)
  }

  /** `error instanceof Error ? error.message : "Unknown error occurred"`. */
  function ErrorDetails(e: StoreError): (d: string)
    ensures e.ErrorWithMessage? ==> d == e.message
    ensures e.OtherThrown? ==> d == "Unknown error occurred"
  {
    match e
    case ErrorWithMessage(m) => m
    case OtherThrown => "Unknown error occurred"
  }

  /** GET over the user table `users`; `failure` is the exception the lookup
      throws, if any. */
  function GetSettings(session: Option<UserId>, users: seq<User>, failure: Option<StoreError>)
    : (r: Response<UserSettings>)
    ensures session.None? ==> r == Unauthorized()
    ensures session.Some? && failure.Some? ==>
              r == Response(InternalServerError, None, "Failed to fetch user settings",
                            Details(ErrorDetails(failure.value)))
    ensures session.Some? && failure.None? && (forall u :: u in users ==> u.id != session.value) ==>
              r == Response(NotFound, None, "User not found", EmptyError)
    ensures r.status == Success <==> session.Some? && failure.None? && exists u :: u in users && u.id == session.value
    ensures r.status == Success ==>
              r.message == "User settings fetched successfully" && r.error == EmptyError && r.data.Some?
              && r.data.value.id == session.value
              && exists u :: u in users && u.id == session.value && r.data.value == Project(u)
  {
    if session.None? then Unauthorized()
    else if failure.Some? then
      Response(InternalServerError, None, "Failed to fetch user settings", Details(ErrorDetails(failure.value)))
    else match FindWhere(users, (u: User) => u.id == session.value)
      case None => Response(NotFound, None, "User not found", EmptyError)
      case Some(k) => Answer(Success, Project(users[k]), "User settings fetched successfully")
  }

  /** With unique ids, the answer is the projection of the one matching user. */
  lemma SettingsOfUser(session: UserId, users: seq<User>, u: User)
    requires u in users && u.id == session
    requires forall i, j :: 0 <= i < j < |users| ==> users[i].id != users[j].id
    ensures GetSettings(Some(session), users, None) == Answer(Success, Project(u), "User settings fetched successfully")
  {
    var k := FindWhere(users, (x: User) => x.id == session);
    var i :| 0 <= i < |users| && users[i] == u;
    assert k.Some? && users[k.value].id == users[i].id;
    assert k.value == i;
  }
}
