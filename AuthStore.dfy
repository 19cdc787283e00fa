/** The authentication store (store/useAuthStore.ts): the signed-in user, the bearer token and
    the request flags, driven by login, register, logout and clearError. The backend call is
    an outcome given as a parameter. */
module AuthStore {
  import opened Wrappers

  /** The user record the store keeps; `dbId` is the backend's `_id`. */
  datatype User = User(dbId: string, firstName: string, lastName: string, email: string,
                       isAdmin: bool)

  /** What `/users/login` and `/users` answer on success. */
  datatype AuthResponse = AuthResponse(dbId: string, firstName: string, lastName: string,
                                       email: string, isAdmin: bool, token: string)

  const LoginFallback: string := "Failed to login"
  const RegisterFallback: string := "Failed to register"

  /** The five user fields the store copies from a response. */
  function UserOf(data: AuthResponse): (u: User)
    ensures u.dbId == data.dbId && u.firstName == data.firstName && u.lastName == data.lastName
    ensures u.email == data.email && u.isAdmin == data.isAdmin
  {
    User(data.dbId, data.firstName, data.lastName, data.email, data.isAdmin)
  }

  class AuthStore {
    var user: Option<User>
    var token: Option<string>
    var isAuthenticated: bool
    var isLoading: bool
    var error: Option<string>

    /** Signed in exactly when a user is held. */
    ghost predicate Valid()
      reads this
    {
      isAuthenticated <==> user.Some?
    }

    constructor ()
      ensures Valid()
      ensures user == None && token == None && !isAuthenticated && !isLoading && error == None
    {
      user, token, isAuthenticated, isLoading, error := None, None, false, false, None;
    }

    /** The first `set` of `login` and `register`. */
    method StartRequest()
      requires Valid()
      modifies this
      ensures Valid()
      ensures isLoading && error == None
      ensures user == old(user) && token == old(token) && isAuthenticated == old(isAuthenticated)
    {
      isLoading, error := true, None;
    }

    /** The second `set`: the session on success, the message on failure. Returns false when
        the call failed, where the source re-raises the error to its caller. */
    method FinishRequest(response: Outcome<AuthResponse>, fallback: string) returns (ok: bool)
      requires Valid()
      modifies this
      ensures Valid()
      ensures ok == response.Ok?
      ensures !isLoading
      ensures response.Ok? ==>
        && user == Some(UserOf(response.value)) && token == Some(response.value.token)
        && isAuthenticated && error == old(error)
      ensures response.Fail? ==>
        && error == Some(FailureMessage(response, fallback))
        && user == old(user) && token == old(token) && isAuthenticated == old(isAuthenticated)
    {
      match response
      case Ok(data) =>
        user, token, isAuthenticated, isLoading := Some(UserOf(data)), Some(data.token), true, false;
        ok := true;
      case Fail(_) =>
        isLoading, error := false, Some(FailureMessage(response, fallback));
        ok := false;
    }

    method Login(response: Outcome<AuthResponse>) returns (ok: bool)
      requires Valid()
      modifies this
      ensures Valid()
      ensures ok == response.Ok?
      ensures !isLoading
      ensures response.Ok? ==>
        && user == Some(UserOf(response.value)) && token == Some(response.value.token)
        && isAuthenticated && error == None
      ensures response.Fail? ==>
        && error == Some(FailureMessage(response, LoginFallback))
        && user == old(user) && token == old(token) && isAuthenticated == old(isAuthenticated)
    {
      StartRequest();
      ok := FinishRequest(response, LoginFallback);
    }

    method Register(response: Outcome<AuthResponse>) returns (ok: bool)
      requires Valid()
      modifies this
      ensures Valid()
      ensures ok == response.Ok?
      ensures !isLoading
      ensures response.Ok? ==>
        && user == Some(UserOf(response.value)) && token == Some(response.value.token)
        && isAuthenticated && error == None
      ensures response.Fail? ==>
        && error == Some(FailureMessage(response, RegisterFallback))
        && user == old(user) && token == old(token) && isAuthenticated == old(isAuthenticated)
    {
      StartRequest();
      ok := FinishRequest(response, RegisterFallback);
    }

    method Logout()
      requires Valid()
      modifies this
      ensures Valid()
      ensures user == None && token == None && !isAuthenticated
      ensures isLoading == old(isLoading) && error == old(error)
    {
      user, token, isAuthenticated := None, None, false;
    }

    method ClearError()
      requires Valid()
      modifies this
      ensures Valid()
      ensures error == None
      ensures user == old(user) && token == old(token) && isAuthenticated == old(isAuthenticated)
      ensures isLoading == old(isLoading)
    {
      error := None;
    }
  }
}
