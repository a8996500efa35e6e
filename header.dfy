/**
 * The page header (frontend/src/utilities/headerUtilities.js): the stored token decides whether the
 * header asks the backend who is logged in; a refused answer discards the token and shows the
 * login and signup buttons, an accepted one shows the user. The answers are inputs.
 */
module Header {
  import opened Util
  import opened Roles
  import opened Http

  /** Which half of the header is displayed. */
  datatype Display = LoggedOut | LoggedIn

  /** A stored token the script treats as present: set and not empty. */
  predicate Truthy(token: Option<string>) { token.Some? && token.value != "" }

  /** The stored token and the display after `showCurrentUser`, for the status its request was answered with. */
  datatype Session = Session(token: Option<string>, display: Display)

  function AfterShow(token: Option<string>, status: int): (s: Session)
    ensures s.display == LoggedIn <==> Truthy(token) && IsOk(status)
    ensures s.token == token || (s.token.None? && Truthy(token) && !IsOk(status))
  {
    if !Truthy(token) then Session(token, LoggedOut)
    else if !IsOk(status) then Session(None, LoggedOut)
    else Session(token, LoggedIn)
  }

  /**
   * A refused token is gone: the next page asks nothing and shows the guest buttons; an accepted one
   * stays and keeps being sent.
   */
  lemma {:induction false} RefusedTokenNotResent(token: Option<string>, status: int, nextStatus: int)
    ensures Truthy(token) && !IsOk(status) ==> !Truthy(AfterShow(token, status).token)
    ensures Truthy(token) && !IsOk(status) ==> AfterShow(AfterShow(token, status).token, nextStatus) == Session(None, LoggedOut)
    ensures IsOk(status) ==> AfterShow(token, status).token == token
  {
    if Truthy(token) && !IsOk(status) {
      assert AfterShow(token, status).token == None;
    }
  }

  /** What `getUserDetails` returns: the name, the role and the role's colour (undefined for an unknown role). */
  datatype Details = Details(username: string, role: string, roleColor: Option<string>)

  /** `getUserDetails` given the answer: the details of a user object; without one, reading it throws (None). */
  function UserDetails(reply: Reply<(string, string)>): (d: Option<Details>)
    ensures d.Some? <==> reply.Done?
    ensures d.Some? ==> d.value.username == reply.body.0 && d.value.role == reply.body.1
    ensures d.Some? ==> (d.value.roleColor.Some? <==> reply.body.1 in Colors)
  {
    match reply
    case Fail(_) => None
    case Done((username, role)) => Some(Details(username, role, GetRoleColor(role)))
  }

  class HeaderView {
    var token: Option<string>
    var authButtonsShown: bool
    var userInfoShown: bool
    var shownUsername: string
    var shownEmail: string
    var logoutBound: bool
    var reloaded: bool

    constructor (token: Option<string>)
      ensures this.token == token && !authButtonsShown && !userInfoShown && !logoutBound && !reloaded
      ensures shownUsername == "" && shownEmail == ""
    {
      this.token := token;
      authButtonsShown, userInfoShown, logoutBound, reloaded := false, false, false, false;
      shownUsername, shownEmail := "", "";
    }

    /**
     * `showCurrentUser` with the answer `status` and, when ok, the user's name and email: returns
     * whether a request was sent. Only a truthy token is sent; a refused one is removed.
     */
    method ShowCurrentUser(status: int, user: (string, string)) returns (requested: bool)
      modifies this`token, this`authButtonsShown, this`userInfoShown, this`shownUsername, this`shownEmail, this`logoutBound
      ensures requested == Truthy(old(token))
      ensures token == AfterShow(old(token), status).token
      ensures AfterShow(old(token), status).display == LoggedOut ==>
        authButtonsShown && !userInfoShown && shownUsername == old(shownUsername) && shownEmail == old(shownEmail)
        && logoutBound == old(logoutBound)
      ensures AfterShow(old(token), status).display == LoggedIn ==>
        !authButtonsShown && userInfoShown && shownUsername == user.0 && shownEmail == user.1 && logoutBound
    {
      if !Truthy(token) {
        authButtonsShown, userInfoShown := true, false;
        return false;
      }
      requested := true;
      if !IsOk(status) {
        token := None;
        authButtonsShown, userInfoShown := true, false;
        return;
      }
      shownUsername, shownEmail := user.0, user.1;
      authButtonsShown, userInfoShown := false, true;
      logoutBound := true;
    }

    /** `logout`: the token is removed and the page reloads. */
    method Logout()
      modifies this`token, this`reloaded
      ensures token.None? && reloaded
      ensures AfterShow(token, 200) == Session(None, LoggedOut)
    {
      token := None;
      reloaded := true;
    }
  }
}
