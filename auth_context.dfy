/** The authentication context: the signed-in user, whether that user is
    the administrator, and whether the session check is still pending. */
module AuthContext {
  import opened Records
  import opened Auth

  /** The part of a session user the site reads. */
  datatype User = User(email: Option<string>)

  /** `user ? isAdminEmail(user.email || '') : false`. */
  function AdminFor(user: Option<User>, env: Env): (r: bool)
    ensures r ==> user.Some?
    ensures user.Some? && user.value.email.None? ==> !r
    ensures user.Some? && user.value.email.Some? ==> (r <==> IsAdminEmail(user.value.email.value, env))
  {
    if user.Some? then
      var email := if user.value.email.Some? then user.value.email.value else "";
      EmptyEmailIsNotAdmin(env);
      IsAdminEmail(email, env)
    else false
  }

  class AuthProvider {
    /** The admin configuration. */
    const env: Env
    var user: Option<User>
    var isAdmin: bool
    var loading: bool

    /** `isAdmin` always describes the current user. */
    ghost predicate Valid()
      reads this
    {
      isAdmin == AdminFor(user, env)
    }

    constructor (config: Env)
      ensures Valid()
      ensures env == config && user == None && !isAdmin && loading
    {
      env := config;
      user, isAdmin, loading := None, false, true;
    }

    /** `isAuthenticated: !!user`. */
    function IsAuthenticated(): (r: bool)
      reads this
      ensures r <==> user.Some?
    {
      user.Some?
    }

    /** The initial session check once the user lookup returned `found`. */
    method CheckSessionCompleted(found: Option<User>)
      modifies this`user, this`isAdmin, this`loading
      ensures Valid()
      ensures user == found && isAdmin == AdminFor(found, env) && !loading
      ensures isAdmin ==> IsAuthenticated()
    {
      user := found;
      isAdmin := if found.Some? then AdminFor(found, env) else false;
      loading := false;
    }

    /** The auth-change callback; `sessionUser` is `session?.user`. An event
        without a session signs the user out of the context. */
    method OnAuthStateChange(sessionUser: Option<User>)
      modifies this`user, this`isAdmin, this`loading
      ensures Valid()
      ensures sessionUser.Some? ==> user == sessionUser && isAdmin == AdminFor(sessionUser, env)
      ensures sessionUser.None? ==> user == None && !isAdmin
      ensures !loading
      ensures isAdmin ==> IsAuthenticated()
    {
      if sessionUser.Some? {
        user := sessionUser;
        isAdmin := AdminFor(sessionUser, env);
      } else {
        user := None;
        isAdmin := false;
      }
      loading := false;
    }
  }
}
