/** The login session (`app.Session`): one static field holding the logged-in user, or `null`. */
module Session {
  import opened Common
  import opened Entities
  import opened JavaString

  /** `isLoggedIn()` on a given value of the field: a user whose email is present and not blank
      in the sense of `String.isBlank`. */
  predicate LoggedIn(u: Option<User>)
    ensures LoggedIn(u) ==> u.Some? && u.value.email.Some? && u.value.email.value != []
    ensures u.Some? && u.value.email.Some? && (exists i :: 0 <= i < |u.value.email.value| && '!' <= u.value.email.value[i] <= '~')
      ==> LoggedIn(u)
  {
    u.Some? && u.value.email.Some? && !IsBlank(u.value.email.value)
  }

  class SessionState {
    var loggedUser: Option<User>

    /** At start-up nobody is logged in. */
    constructor ()
      ensures loggedUser == None && !LoggedIn(loggedUser)
    {
      loggedUser := None;
    }

    /** `setLoggedUser(user)`; `null` logs out. */
    method SetLoggedUser(user: Option<User>)
      modifies this
      ensures loggedUser == user
      ensures user.None? ==> !LoggedIn(loggedUser)
    {
      loggedUser := user;
    }

    /** `getLoggedUser()`. */
    method GetLoggedUser() returns (user: Option<User>)
      ensures user == loggedUser
    {
      user := loggedUser;
    }

    /** `isLoggedIn()`. */
    method IsLoggedIn() returns (b: bool)
      ensures b <==> loggedUser.Some? && loggedUser.value.email.Some? && !IsBlank(loggedUser.value.email.value)
      ensures b == LoggedIn(loggedUser)
    {
      b := loggedUser != None && loggedUser.value.email != None && !IsBlank(loggedUser.value.email.value);
    }

    /** `logout()`. */
    method Logout()
      modifies this
      ensures loggedUser == None && !LoggedIn(loggedUser)
    {
      loggedUser := None;
    }
  }

  /** A user without email, or with an email made only of whitespace, is not logged in even
      though the field holds it; any other email counts. */
  lemma LoggedInNeedsEmail(u: User)
    ensures u.email.None? ==> !LoggedIn(Some(u))
    ensures u.email.Some? && IsBlank(u.email.value) ==> !LoggedIn(Some(u))
    ensures u.email.Some? && u.email.value != [] && !IsJavaWhitespace(u.email.value[0]) ==> LoggedIn(Some(u))
    ensures !LoggedIn(Some(u.(email := Some(" \t\n"))))
  {
  }
}
