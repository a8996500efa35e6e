/**
 * The user endpoints (backend/api/endpoints/users.py): reading a user record, the username and
 * role lookups, and signup. `get_user_by_id` is modelled twice: as written, where the admin branch
 * subscripts a model object and fails, and as its comment says it should behave.
 */
module UsersApi {
  import opened Util
  import opened Models
  import opened Database
  import opened Http
  import opened Signup

  /**
   * `get_user_by_id` as written: 404 when the target or the caller is unknown; a caller reading
   * their own record gets it; for anyone else the role test subscripts the `User` object the store
   * returned, which raises TypeError and answers 500, admins included.
   */
  function GetUserByIdAsWritten(db: Store, userId: int, currentUserId: int): (r: Reply<User>)
    reads db
    ensures r == Fail(NotFound) <==> !db.UserExists(userId) || !db.UserExists(currentUserId)
    ensures r.Done? <==> db.UserExists(userId) && userId == currentUserId
    ensures db.UserExists(userId) && db.UserExists(currentUserId) && userId != currentUserId ==> r == Fail(ServerError)
    ensures r.Done? ==> r.body == db.UserById(userId).value
  {
    match (db.UserById(userId), db.UserById(currentUserId))
    case (None, _) => Fail(NotFound)
    case (_, None) => Fail(NotFound)
    case (Some(user), Some(current)) =>
      if userId != currentUserId then Fail(ServerError)
      else Done(user)
  }

  /** As written, an admin asking for another existing user's record gets 500, not the record. */
  lemma AdminReadRefusedAsWritten(db: Store, userId: int, adminId: int)
    requires db.UserExists(userId) && db.RoleById(adminId) == Some("admin") && userId != adminId
    ensures GetUserByIdAsWritten(db, userId, adminId) == Fail(ServerError)
    ensures GetUserById(db, userId, adminId) == Done(db.UserById(userId).value)
  {
  }

  /**
   * `get_user_by_id` as intended: 404 when the target or the caller is unknown; 403 when the caller
   * is neither the target nor an admin; otherwise the target's record.
   */
  function GetUserById(db: Store, userId: int, currentUserId: int): (r: Reply<User>)
    reads db
    ensures r == Fail(NotFound) <==> !db.UserExists(userId) || !db.UserExists(currentUserId)
    ensures r == Fail(Forbidden) <==>
      db.UserExists(userId) && db.UserExists(currentUserId)
      && userId != currentUserId && db.RoleById(currentUserId) != Some("admin")
    ensures r.Done? ==> r.body == db.UserById(userId).value && r.body.userId == userId
  {
    match (db.UserById(userId), db.UserById(currentUserId))
    case (None, _) => Fail(NotFound)
    case (_, None) => Fail(NotFound)
    case (Some(user), Some(current)) =>
      if userId != currentUserId && current.role != "admin" then Fail(Forbidden)
      else Done(user)
  }

  /** A known user reads their own record; an admin reads any known record; nobody else reads it. */
  lemma SelfOrAdminReads(db: Store, userId: int, currentUserId: int)
    requires db.UserExists(userId) && db.UserExists(currentUserId)
    ensures GetUserById(db, userId, currentUserId).Done?
        <==> userId == currentUserId || db.RoleById(currentUserId) == Some("admin")
  {
  }

  /** Both versions answer alike except when an admin reads someone else's record. */
  lemma AsWrittenDiffersOnlyForAdmins(db: Store, userId: int, currentUserId: int)
    ensures GetUserByIdAsWritten(db, userId, currentUserId).Done? ==> GetUserByIdAsWritten(db, userId, currentUserId) == GetUserById(db, userId, currentUserId)
    ensures GetUserByIdAsWritten(db, userId, currentUserId) != GetUserById(db, userId, currentUserId) ==>
      GetUserById(db, userId, currentUserId) == Fail(Forbidden) || db.RoleById(currentUserId) == Some("admin")
  {
  }

  /** `get_username_by_id`: the username, or 404. */
  function GetUsernameById(db: Store, userId: int): (r: Reply<string>)
    reads db
    ensures r.Fail? <==> !db.UserExists(userId)
    ensures r.Fail? ==> r.status == NotFound
    ensures r.Done? ==> exists u :: u in db.users && u.userId == userId && u.username == r.body
  {
    match db.UsernameById(userId)
    case None => Fail(NotFound)
    case Some(name) => Done(name)
  }

  /** `get_role_of_user_by_name`: the role, or 404. */
  function GetRoleOfUserByName(db: Store, username: string): (r: Reply<string>)
    reads db
    ensures r.Fail? <==> !db.UsernameExists(username)
    ensures r.Fail? ==> r.status == NotFound
    ensures r.Done? ==> exists u :: u in db.users && u.username == username && u.role == r.body
  {
    match db.RoleOfUserByName(username)
    case None => Fail(NotFound)
    case Some(role) => Done(role)
  }

  /**
   * `get_role_by_id`, served at `/id/{user_id}/role/`: the handler never reads the id in the path;
   * it looks the role up by the `username` query parameter, with the same 404.
   */
  function GetRoleById(db: Store, userId: int, username: string): (r: Reply<string>)
    reads db
    ensures r.Fail? <==> !db.UsernameExists(username)
    ensures r.Fail? ==> r.status == NotFound
    ensures r.Done? ==> exists u :: u in db.users && u.username == username && u.role == r.body
  {
    match db.RoleOfUserByName(username)
    case None => Fail(NotFound)
    case Some(role) => Done(role)
  }

  /** The id in the path makes no difference to the answer. */
  lemma RoleByIdIgnoresId(db: Store, userId: int, otherId: int, username: string)
    ensures GetRoleById(db, userId, username) == GetRoleById(db, otherId, username)
  {
  }

  /**
   * `create_user`: the body is validated first, and any failing field answers 422 with the
   * validators' error list; otherwise the user is stored with role "user" and the password exactly
   * as sent, and the body is echoed. `emailFormatError` is the address-format check's message, and
   * `email` is the address as that check hands it on, normalised: the form the existence check,
   * the stored row and the echo all see.
   */
  method CreateUser(db: Store, username: string, email: string, password: string, emailFormatError: Option<string>,
                    now: int) returns (r: Result<(string, string, string), seq<FieldError>>)
    requires db.Valid()
    modifies db`users, db`nextId
    ensures db.Valid()
    ensures r.Err? <==> SignupErrors(username, email, password, emailFormatError,
                                     old(db.UsernameExists(username)), old(db.EmailExists(email))) != []
    ensures r.Err? ==> r.error == SignupErrors(username, email, password, emailFormatError,
                                               old(db.UsernameExists(username)), old(db.EmailExists(email)))
    ensures r.Err? ==> db.users == old(db.users) && db.nextId == old(db.nextId)
    ensures r.Ok? ==> r.value == (username, email, password)
    ensures r.Ok? ==> !old(db.UsernameExists(username)) && !old(db.EmailExists(email)) && IsAlnum(username)
    ensures r.Ok? ==> db.users == old(db.users) + [User(old(db.nextId), username, email, password, now, "user")]
  {
    var errors := SignupErrors(username, email, password, emailFormatError,
                               db.UsernameExists(username), db.EmailExists(email));
    if errors != [] {
      return Err(errors);
    }
    var userId := db.CreateUser(username, email, password, now);
    r := Ok((username, email, password));
  }
}
