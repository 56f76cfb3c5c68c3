/**
 * The session: who is signed in, the token kept in state and in the browser's
 * storage, and the loading flag, as bootstrap, login, logout and a user
 * refresh change them; plus the role checks derived from the signed-in user.
 */
module Auth {
  import opened Js
  import opened Records

  /** A call made to the server. */
  datatype ApiCall = GetMe | LoginCall(email: string, password: string) | LogoutCall

  /**
   * The outcome of `authAPI.getMe()`: a response whose `data` is a user or empty,
   * or an error carrying the HTTP status when there was a response.
   */
  datatype MeResponse = MeOk(data: Option<User>) | MeFailed(status: Option<int>)

  /**
   * The outcome of `authAPI.login(...)`: the token and user in the response body
   * ("" is a missing token), or an error with the server's message and the
   * error's own message ("" when absent).
   */
  datatype LoginResponse =
    | LoginOk(newToken: string, userData: Option<User>)
    | LoginFailed(serverMessage: string, errorMessage: string)

  /** What `login` resolves to. */
  datatype LoginResult = Success | Failure(message: string)

  /** `!!token` for a stored or held token. */
  predicate HasToken(t: Option<string>) {
    t.Some? && t.value != ""
  }

  class AuthSession {
    var user: Option<User>
    var loading: bool
    var token: Option<string>
    /** `localStorage.getItem('token')` */
    var storage: Option<string>
    /** The server calls made so far, oldest first. */
    var calls: seq<ApiCall>

    /** The token in state always equals the stored one. */
    predicate Synced()
      reads this
    {
      token == storage
    }

    /** The provider mounts with no user, loading, and the token read from storage. */
    constructor (stored: Option<string>)
      ensures user == None && loading && token == stored && storage == stored && calls == []
      ensures Synced()
    {
      user := None;
      loading := true;
      token := stored;
      storage := stored;
      calls := [];
    }

    /** `initAuth`: with a stored token, ask the server who it belongs to. */
    method InitAuth(resp: MeResponse)
      requires Synced()
      modifies this
      ensures Synced() && !loading
      ensures !HasToken(old(storage)) ==>
                calls == old(calls) && user == old(user) && storage == old(storage)
      ensures HasToken(old(storage)) ==> calls == old(calls) + [GetMe]
      ensures HasToken(old(storage)) && resp.MeOk? && resp.data.Some? ==>
                user == resp.data && storage == old(storage)
      ensures HasToken(old(storage)) && resp == MeFailed(Some(401)) ==>
                user == None && storage == None
      ensures HasToken(old(storage)) && !(resp.MeOk? && resp.data.Some?) && resp != MeFailed(Some(401)) ==>
                user == old(user) && storage == old(storage)
    {
      var storedToken := storage;
      if HasToken(storedToken) {
        loading := true;
        calls := calls + [GetMe];
        match resp {
          case MeOk(data) =>
            if data.Some? {
              user := data;
              token := storedToken;
            }
          case MeFailed(status) =>
            if status == Some(401) {
              storage := None;
              token := None;
              user := None;
            }
        }
        loading := false;
      } else {
        loading := false;
      }
    }

    /** `logout`: tell the server without waiting, and always forget the session locally. */
    method Logout()
      modifies this
      ensures user == None && token == None && storage == None
      ensures calls == old(calls) + [LogoutCall] && loading == old(loading)
      ensures Synced()
    {
      calls := calls + [LogoutCall];
      storage := None;
      token := None;
      user := None;
    }

    /** `fetchUser`: refresh the user; a failure logs out. */
    method FetchUser(resp: MeResponse) returns (success: bool)
      requires Synced()
      modifies this
      ensures Synced()
      ensures success <==> resp.MeOk?
      ensures resp.MeOk? ==> user == resp.data && storage == old(storage) && calls == old(calls) + [GetMe]
      ensures resp.MeFailed? ==> user == None && storage == None && calls == old(calls) + [GetMe, LogoutCall]
      ensures loading == old(loading)
    {
      calls := calls + [GetMe];
      match resp
      case MeOk(data) =>
        user := data;
        success := true;
      case MeFailed(_) =>
        Logout();
        success := false;
    }

    /** `login(email, password)` */
    method Login(email: string, password: string, resp: LoginResponse) returns (result: LoginResult)
      requires Synced()
      modifies this
      ensures Synced() && !loading
      ensures calls == old(calls) + [LoginCall(email, password)]
      ensures result.Success? <==> resp.LoginOk? && resp.newToken != "" && resp.userData.Some?
      ensures result.Success? ==> storage == Some(resp.newToken) && user == resp.userData
      ensures result.Failure? ==> storage == old(storage) && user == old(user)
      ensures resp.LoginOk? && resp.newToken == "" ==> result == Failure("No token received from server")
      ensures resp.LoginOk? && resp.newToken != "" && resp.userData.None? ==>
                result == Failure("No user data received from server")
      ensures resp.LoginFailed? ==>
                result == Failure(OrText(resp.serverMessage, OrText(resp.errorMessage, "Login failed. Please try again.")))
    {
      loading := true;
      calls := calls + [LoginCall(email, password)];
      match resp
      case LoginOk(newToken, userData) =>
        if newToken == "" {
          loading := false;
          result := Failure("No token received from server");
        } else if userData.None? {
          loading := false;
          result := Failure("No user data received from server");
        } else {
          storage := Some(newToken);
          token := Some(newToken);
          user := userData;
          loading := false;
          result := Success;
        }
      case LoginFailed(serverMessage, errorMessage) =>
        loading := false;
        result := Failure(OrText(serverMessage, OrText(errorMessage, "Login failed. Please try again.")));
    }

    /** `isSuperadmin()` */
    predicate IsSuperadmin()
      reads this
    {
      user.Some? && user.value.role == "superadmin"
    }

    /** `isCaretaker()` */
    predicate IsCaretaker()
      reads this
    {
      user.Some? && user.value.role == "caretaker"
    }

    /**
     * `canAccessApartment(apartmentId)`; only the caretaker branch calls the
     * id's `toString`, so only there must it be neither null nor undefined.
     */
    predicate CanAccessApartment(apartmentId: JsVal)
      requires IsCaretaker() && Truthy(user.value.apartment) ==> apartmentId != Undef && apartmentId != Null
      reads this
    {
      if IsSuperadmin() then true
      else if IsCaretaker() && Truthy(user.value.apartment) then
        ToStr(IdOf(user.value.apartment)) == ToStr(apartmentId)
      else false
    }

    /**
     * A superadmin may open any apartment; a caretaker with an apartment only
     * the one whose id (the populated `_id`, or the bare value) matches; anyone
     * else none.
     */
    lemma CanAccessApartmentCases(apartmentId: JsVal)
      requires IsCaretaker() && Truthy(user.value.apartment) ==> apartmentId != Undef && apartmentId != Null
      ensures IsSuperadmin() ==> CanAccessApartment(apartmentId)
      ensures user.Some? && user.value.role == "caretaker" && Truthy(user.value.apartment) ==>
                (CanAccessApartment(apartmentId) <==> ToStr(IdOf(user.value.apartment)) == ToStr(apartmentId))
      ensures (user.None? || (user.value.role != "superadmin" && user.value.role != "caretaker")) ==>
                !CanAccessApartment(apartmentId)
      ensures IsCaretaker() && !Truthy(user.value.apartment) ==> !CanAccessApartment(apartmentId)
    {
    }
  }

  /** The whole bootstrap with no stored token: no server call, not loading, no user. */
  method BootstrapWithoutToken() returns (s: AuthSession)
    ensures fresh(s)
    ensures s.calls == [] && !s.loading && s.user == None && s.token == None
  {
    s := new AuthSession(None);
    s.InitAuth(MeFailed(None));
  }
}
