/**
 * The authentication context (src/providers/AuthProvider.tsx): whether the
 * web view counts as logged in, who the user is, whether a check or a login is
 * in flight, and the last login error. The mount effect, `login` and `logout`
 * are each one atomic method over the client and its token storage.
 */
module AuthProvider {
  import opened Common
  import opened WebStorage
  import opened ApiClient

  datatype UserInfo = UserInfo(userId: string, ownerId: string, role: string)

  /** The identity assumed after a token survives the mount-time health check. */
  const DevUser: UserInfo := UserInfo("dev", "dev", "owner")
  const LoginFailedMessage: string := "Login failed"

  class Auth {
    var isAuthenticated: bool
    var isLoading: bool
    var user: Option<UserInfo>
    var error: Option<string>
    const api: Api

    constructor(api: Api)
      ensures !isAuthenticated && isLoading && user == None && error == None
      ensures this.api == api
    {
      isAuthenticated := false;
      isLoading := true;
      user := None;
      error := None;
      this.api := api;
    }

    /**
     * The mount effect. With a stored token it probes `/health`: success logs
     * the dev user in, failure drops the tokens. Without a token nothing but
     * the loading flag changes.
     */
    method Mount<H>(health: Result<Response<H>, Thrown>) returns (sent: Option<Request>)
      modifies this, api.store
      ensures !isLoading && error == old(error)
      ensures var token := Item(old(api.store.items), TokenKey);
        && (!Truthy(token) ==>
              && sent == None && api.store.items == old(api.store.items)
              && isAuthenticated == old(isAuthenticated) && user == old(user))
        && (Truthy(token) && ApiResult(health).Ok? ==>
              && sent.Some? && sent.value.url == api.baseUrl + "/health"
              && HeaderValue(sent.value.headers, "Authorization") == Some("Bearer " + token.value)
              && isAuthenticated && user == Some(DevUser)
              && api.store.items == old(api.store.items))
        && (Truthy(token) && ApiResult(health).Err? ==>
              && sent.Some?
              && isAuthenticated == old(isAuthenticated) && user == old(user)
              && api.store.items == Cleared(old(api.store.items)))
    {
      var token := api.GetToken();
      if Truthy(token) {
        var r, req := api.GetHealth(health);
        sent := Some(req);
        if r.Ok? {
          isAuthenticated := true;
          user := Some(DevUser);
        } else {
          api.ClearToken();
        }
      } else {
        sent := None;
      }
      isLoading := false;
    }

    /**
     * `login(username, password)`: success stores the token pair and logs the
     * user in as the owner of their own data; failure records the message (or
     * "Login failed") and rethrows without touching the authentication state.
     */
    method Login(username: string, password: string, fetch: Result<Response<TokenResponse>, Thrown>)
      returns (outcome: Result<(), Thrown>)
      modifies this, api.store
      ensures !isLoading
      ensures outcome.Ok? <==> ApiResult(fetch).Ok?
      ensures ApiResult(fetch).Ok? ==>
        && isAuthenticated && user == Some(UserInfo(username, username, "owner")) && error == None
        && api.store.items == WithTokens(old(api.store.items),
                                         ApiResult(fetch).value.accessToken, ApiResult(fetch).value.refreshToken)
      ensures ApiResult(fetch).Err? ==>
        && outcome == Err(ApiResult(fetch).error)
        && error == Some(MessageOr(ApiResult(fetch).error, LoginFailedMessage))
        && isAuthenticated == old(isAuthenticated) && user == old(user)
        && api.store.items == StorageAfter(old(api.store.items), fetch)
    {
      error := None;
      isLoading := true;
      var r, _ := api.Login(username, password, fetch);
      if r.Ok? {
        isAuthenticated := true;
        user := Some(UserInfo(username, username, "owner"));
        outcome := Ok(());
      } else {
        error := Some(MessageOr(r.error, LoginFailedMessage));
        outcome := Err(r.error);
      }
      isLoading := false;
    }

    /** `logout()`: drops the tokens and the user; the loading flag and the last error stay. */
    method Logout()
      modifies this, api.store
      ensures !isAuthenticated && user == None
      ensures isLoading == old(isLoading) && error == old(error)
      ensures api.store.items == Cleared(old(api.store.items))
    {
      api.Logout();
      isAuthenticated := false;
      user := None;
    }
  }

  /**
   * A session that logs in and then out ends unauthenticated with no token in
   * storage, and the next mount makes no request.
   */
  method LoginLogoutMount(api: Api, username: string, password: string,
                          fetch: Result<Response<TokenResponse>, Thrown>, health: Result<Response<()>, Thrown>)
    returns (sent: Option<Request>)
    modifies api.store
    ensures sent == None
  {
    var auth := new Auth(api);
    var _ := auth.Login(username, password, fetch);
    auth.Logout();
    var again := new Auth(api);
    sent := again.Mount(health);
  }
}
