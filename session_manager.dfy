/** `SessionManager`: the app-wide record of who is using the app, kept in
    memory and wiped on sign-out. The screens assign its fields directly;
    the assignments they make are gathered here as methods. */
module Session {
  import opened Model

  class SessionManager {
    var userId: Option<string>
    var email: Option<string>
    var isGuest: bool

    /** No user and not a guest: the state at start and after `clear`. */
    predicate IsCleared()
      reads this
    {
      userId.None? && email.None? && !isGuest
    }

    constructor ()
      ensures IsCleared()
    {
      userId, email, isGuest := None, None, false;
    }

    /** `clear`: back to the initial state, whatever the state was (so
        clearing twice is clearing once). */
    method Clear()
      modifies this
      ensures IsCleared()
    {
      userId, email, isGuest := None, None, false;
    }

    /** A signed-in account: the login screens and the auth-state listener
        record its id and (possibly absent) e-mail and drop guest mode. */
    method SignIn(uid: string, mail: Option<string>)
      modifies this
      ensures userId == Some(uid) && email == mail && !isGuest
    {
      userId, email, isGuest := Some(uid), mail, false;
    }

    /** "Continue without an account": clear, then enter guest mode. */
    method ContinueAsGuest()
      modifies this
      ensures userId.None? && email.None? && isGuest
    {
      Clear();
      isGuest := true;
    }
  }
}
