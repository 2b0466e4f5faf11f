/**
 * The web view's HTTP client (src/lib/api.ts): the two token keys in
 * `localStorage`, the header set every JSON request carries (the stored access
 * token as an `Authorization: Bearer` header, section 2.1 of RFC 6750), the
 * mapping of failed responses to errors, and the token-managing calls
 * `login`, `refreshToken` and `logout`.
 *
 * The network is an oracle: each call takes what `fetch` resolved to, a
 * response or a rejection, and returns the request it sent so that its URL,
 * headers and body can be stated.
 */
module ApiClient {
  import opened Common
  import opened WebStorage

  const DefaultBaseUrl: string := "http://127.0.0.1:8000"
  const TokenKey: string := "cyberseed_token"
  const RefreshTokenKey: string := "cyberseed_refresh_token"
  const JsonType: string := "application/json"
  const UnauthorizedMessage: string := "Unauthorized - please login again"
  const NoRefreshTokenMessage: string := "No refresh token"

  // ---------------------------------------------------------------------------
  // Header objects. A JavaScript object literal with spreads is a list of
  // name/value pairs in insertion order; assigning an existing name replaces
  // its value in place.

  type Headers = seq<(string, string)>

  /** The value stored under `name`, if any. */
  function HeaderValue(h: Headers, name: string): Option<string> {
    if |h| == 0 then None
    else if h[0].0 == name then Some(h[0].1)
    else HeaderValue(h[1..], name)
  }

  /** The value a later assignment leaves for `name`: the last pair with that name wins. */
  function LastValue(h: Headers, name: string): Option<string> {
    if |h| == 0 then None
    else if h[|h| - 1].0 == name then Some(h[|h| - 1].1)
    else LastValue(h[..|h| - 1], name)
  }

  /** `obj[name] = value` */
  function Assign(obj: Headers, name: string, value: string): (r: Headers)
    ensures HeaderValue(r, name) == Some(value)
    ensures forall other :: other != name ==> HeaderValue(r, other) == HeaderValue(obj, other)
  {
    if |obj| == 0 then [(name, value)]
    else if obj[0].0 == name then [(name, value)] + obj[1..]
    else [obj[0]] + Assign(obj[1..], name, value)
  }

  /** `{...obj, ...src}`: the pairs of `src` assigned in order. */
  function Spread(obj: Headers, src: Headers): (r: Headers)
    ensures forall name ::
      HeaderValue(r, name) == if LastValue(src, name).Some? then LastValue(src, name) else HeaderValue(obj, name)
  {
    if |src| == 0 then obj
    else Assign(Spread(obj, src[..|src| - 1]), src[|src| - 1].0, src[|src| - 1].1)
  }

  /** The `Authorization` pair when a token is stored; an empty token is falsy and adds nothing. */
  function Bearer(token: Option<string>): (h: Headers)
    ensures LastValue(h, "Authorization") == if Truthy(token) then Some("Bearer " + token.value) else None
    ensures forall name :: name != "Authorization" ==> LastValue(h, name) == None
  {
    if Truthy(token) then [("Authorization", "Bearer " + token.value)] else []
  }

  /**
   * The headers `apiFetch` sends: JSON content type unless the caller names
   * another one, then the caller's headers, then the bearer token, which
   * overrides any `Authorization` the caller passed.
   */
  function RequestHeaders(token: Option<string>, caller: Headers): (h: Headers)
    ensures HeaderValue(h, "Authorization") ==
      if Truthy(token) then Some("Bearer " + token.value) else LastValue(caller, "Authorization")
    ensures HeaderValue(h, "Content-Type") ==
      if LastValue(caller, "Content-Type").Some? then LastValue(caller, "Content-Type") else Some(JsonType)
    ensures forall name :: name != "Authorization" && name != "Content-Type" ==>
      HeaderValue(h, name) == LastValue(caller, name)
  {
    var defaults := [("Content-Type", JsonType)];
    assert forall name :: name != "Content-Type" ==> HeaderValue(defaults, name) == None by {
      forall name | name != "Content-Type" ensures HeaderValue(defaults, name) == None {
        assert defaults[1..] == [];
      }
    }
    assert HeaderValue(defaults, "Content-Type") == Some(JsonType);
    Spread(Spread(defaults, caller), Bearer(token))
  }

  // ---------------------------------------------------------------------------
  // Requests and responses

  datatype Body =
    | NoBody
    | LoginBody(username: string, password: string)
    | RefreshBody(refreshToken: string)
    | Files(names: seq<string>)

  /** The options a caller passes to `apiFetch`; `verb` is its `method`, a GET when absent. */
  datatype RequestInit = RequestInit(verb: string, headers: Headers, body: Body)

  datatype Request = Request(verb: string, url: string, headers: Headers, body: Body)

  /** A response: its status, its text, and what parsing its body as JSON gives. */
  datatype Response<T> = Response(status: nat, text: string, json: Result<T, Thrown>)

  /** `response.ok` */
  predicate IsOk(status: nat) {
    200 <= status <= 299
  }

  datatype TokenResponse = TokenResponse(accessToken: string, refreshToken: string, tokenType: string)

  function ApiErrorMessage(status: nat, text: string): string {
    "API error " + Decimal(status) + ": " + text
  }

  /** A response with status 401: the one failure that logs the client out. */
  predicate Unauthorized<T>(fetch: Result<Response<T>, Thrown>) {
    fetch.Ok? && fetch.value.status == 401
  }

  /** What `apiFetch` resolves or rejects with, given what `fetch` did. */
  function ApiResult<T>(fetch: Result<Response<T>, Thrown>): Result<T, Thrown> {
    match fetch
    case Err(e) => Err(e)
    case Ok(resp) =>
      if IsOk(resp.status) then resp.json
      else if resp.status == 401 then Err(ErrorObject(UnauthorizedMessage))
      else Err(ErrorObject(ApiErrorMessage(resp.status, resp.text)))
  }

  /**
   * A successful response yields its parsed body; a 401 yields the fixed
   * "please login again" error; every other failed status yields an error
   * naming the status and the response text; a rejected fetch propagates.
   */
  lemma ApiResultCases<T>(fetch: Result<Response<T>, Thrown>)
    ensures ApiResult(fetch).Ok? ==> fetch.Ok? && IsOk(fetch.value.status)
    ensures fetch.Ok? && !IsOk(fetch.value.status) ==>
      (Unauthorized(fetch) <==> ApiResult(fetch) == Err(ErrorObject(UnauthorizedMessage)))
    ensures fetch.Ok? && !IsOk(fetch.value.status) && fetch.value.status != 401 ==>
      ApiResult(fetch).Err? && ApiResult(fetch).error.ErrorObject?
      && StartsWith(ApiResult(fetch).error.message, "API error " + Decimal(fetch.value.status) + ": ")
  {
    if fetch.Ok? && !IsOk(fetch.value.status) && fetch.value.status != 401 {
      var m := ApiErrorMessage(fetch.value.status, fetch.value.text);
      assert m == ("API error " + Decimal(fetch.value.status) + ": ") + fetch.value.text;
      assert StartsWith(m, "API error " + Decimal(fetch.value.status) + ": ");
      assert m != UnauthorizedMessage by {
        assert m[0] == 'A' && UnauthorizedMessage[0] == 'U';
      }
    }
  }

  // ---------------------------------------------------------------------------
  // Token store

  /** `setTokens(access, refresh)` applied to the storage map. */
  function WithTokens(items: map<string, string>, access: string, refresh: string): map<string, string> {
    items[TokenKey := access][RefreshTokenKey := refresh]
  }

  /** `clearToken()` applied to the storage map. */
  function Cleared(items: map<string, string>): map<string, string> {
    items - {TokenKey, RefreshTokenKey}
  }

  /** The storage after `apiFetch`: only a 401 touches it, and then only to drop the tokens. */
  function StorageAfter<T>(items: map<string, string>, fetch: Result<Response<T>, Thrown>): map<string, string> {
    if Unauthorized(fetch) then Cleared(items) else items
  }

  /**
   * Storing a pair makes the next request carry the new access token (when it
   * is not empty); clearing makes the next request carry no bearer token of its
   * own; neither touches any other key.
   */
  lemma TokenStoreRoundTrip(items: map<string, string>, access: string, refresh: string, caller: Headers)
    ensures Item(WithTokens(items, access, refresh), TokenKey) == Some(access)
    ensures Item(WithTokens(items, access, refresh), RefreshTokenKey) == Some(refresh)
    ensures access != "" ==>
      HeaderValue(RequestHeaders(Item(WithTokens(items, access, refresh), TokenKey), caller), "Authorization")
      == Some("Bearer " + access)
    ensures Item(Cleared(items), TokenKey) == None && Item(Cleared(items), RefreshTokenKey) == None
    ensures HeaderValue(RequestHeaders(Item(Cleared(items), TokenKey), caller), "Authorization")
      == LastValue(caller, "Authorization")
    ensures forall k :: k != TokenKey && k != RefreshTokenKey ==>
      Item(WithTokens(items, access, refresh), k) == Item(items, k) && Item(Cleared(items), k) == Item(items, k)
  {
  }

  /** Logging out twice is the same as logging out once. */
  lemma ClearedIdempotent(items: map<string, string>)
    ensures Cleared(Cleared(items)) == Cleared(items)
  {
  }

  /** `listFiles` path: `?category=` is appended only for a truthy category. */
  function ListFilesPath(ownerId: string, soulId: string, category: Option<string>): (p: string)
    ensures StartsWith(p, "/souls/" + ownerId + "/" + soulId + "/files")
    ensures |p| > |"/souls/" + ownerId + "/" + soulId + "/files"| <==> Truthy(category)
    ensures Truthy(category) ==> p == "/souls/" + ownerId + "/" + soulId + "/files" + "?category=" + category.value
    ensures !Truthy(category) ==> p == "/souls/" + ownerId + "/" + soulId + "/files"
  {
    var base := "/souls/" + ownerId + "/" + soulId + "/files";
    assert StartsWith(base + "?category=" + OrDefault(category, ""), base) by {
      assert (base + "?category=" + OrDefault(category, ""))[..|base|] == base;
    }
    if Truthy(category) then base + "?category=" + category.value else base
  }

  /** The client: where requests go, and the storage holding the tokens. */
  class Api {
    const baseUrl: string
    const store: Store

    /** `VITE_API_BASE_URL ?? 'http://127.0.0.1:8000'`: only an unset variable falls back. */
    constructor(env: Option<string>, store: Store)
      ensures this.baseUrl == env.GetOr(DefaultBaseUrl) && this.store == store
    {
      this.baseUrl := env.GetOr(DefaultBaseUrl);
      this.store := store;
    }

    /** `getToken()` */
    method GetToken() returns (t: Option<string>)
      ensures t == Item(store.items, TokenKey)
    {
      t := store.GetItem(TokenKey);
    }

    /** `setTokens(access, refresh)` */
    method SetTokens(access: string, refresh: string)
      modifies store
      ensures store.items == WithTokens(old(store.items), access, refresh)
    {
      store.SetItem(TokenKey, access);
      store.SetItem(RefreshTokenKey, refresh);
    }

    /** `clearToken()` */
    method ClearToken()
      modifies store
      ensures store.items == Cleared(old(store.items))
    {
      store.RemoveItem(TokenKey);
      store.RemoveItem(RefreshTokenKey);
    }

    /** `logout()` is `clearToken()`. */
    method Logout()
      modifies store
      ensures store.items == Cleared(old(store.items))
    {
      ClearToken();
    }

    /**
     * `apiFetch(path, options)`: sends the request with `RequestHeaders`; a 401
     * drops both tokens; the result is `ApiResult(fetch)`.
     */
    method ApiFetch<T>(path: string, init: RequestInit, fetch: Result<Response<T>, Thrown>)
      returns (r: Result<T, Thrown>, sent: Request)
      modifies store
      ensures sent == Request(init.verb, baseUrl + path,
                              RequestHeaders(Item(old(store.items), TokenKey), init.headers), init.body)
      ensures r == ApiResult(fetch)
      ensures store.items == StorageAfter(old(store.items), fetch)
    {
      var token := GetToken();
      sent := Request(init.verb, baseUrl + path, RequestHeaders(token, init.headers), init.body);
      if fetch.Err? {
        r := Err(fetch.error);
        return;
      }
      var resp := fetch.value;
      if !IsOk(resp.status) {
        if resp.status == 401 {
          ClearToken();
          r := Err(ErrorObject(UnauthorizedMessage));
          return;
        }
        r := Err(ErrorObject(ApiErrorMessage(resp.status, resp.text)));
        return;
      }
      r := resp.json;
    }

    /** `login(username, password)`: the returned pair is stored only after a successful request. */
    method Login(username: string, password: string, fetch: Result<Response<TokenResponse>, Thrown>)
      returns (r: Result<TokenResponse, Thrown>, sent: Request)
      modifies store
      ensures sent == Request("POST", baseUrl + "/auth/login",
                              RequestHeaders(Item(old(store.items), TokenKey), []), LoginBody(username, password))
      ensures r == ApiResult(fetch)
      ensures r.Ok? ==> store.items == WithTokens(old(store.items), r.value.accessToken, r.value.refreshToken)
      ensures r.Err? ==> store.items == StorageAfter(old(store.items), fetch)
    {
      r, sent := ApiFetch("/auth/login", RequestInit("POST", [], LoginBody(username, password)), fetch);
      if r.Ok? {
        SetTokens(r.value.accessToken, r.value.refreshToken);
      }
    }

    /**
     * `refreshToken()`: without a (non-empty) refresh token it fails before any
     * request; otherwise it posts the refresh token and replaces both tokens.
     */
    method RefreshToken(fetch: Result<Response<TokenResponse>, Thrown>)
      returns (r: Result<TokenResponse, Thrown>, sent: Option<Request>)
      modifies store
      ensures var refresh := Item(old(store.items), RefreshTokenKey);
        && (!Truthy(refresh) ==>
              r == Err(ErrorObject(NoRefreshTokenMessage)) && sent == None && store.items == old(store.items))
        && (Truthy(refresh) ==>
              && sent == Some(Request("POST", baseUrl + "/auth/refresh",
                                      RequestHeaders(Item(old(store.items), TokenKey), []), RefreshBody(refresh.value)))
              && r == ApiResult(fetch)
              && (r.Ok? ==> store.items == WithTokens(old(store.items), r.value.accessToken, r.value.refreshToken))
              && (r.Err? ==> store.items == StorageAfter(old(store.items), fetch)))
    {
      var refresh := store.GetItem(RefreshTokenKey);
      if !Truthy(refresh) {
        r, sent := Err(ErrorObject(NoRefreshTokenMessage)), None;
        return;
      }
      var req;
      r, req := ApiFetch("/auth/refresh", RequestInit("POST", [], RefreshBody(refresh.value)), fetch);
      sent := Some(req);
      if r.Ok? {
        SetTokens(r.value.accessToken, r.value.refreshToken);
      }
    }

    /** `getHealth()` */
    method GetHealth<T>(fetch: Result<Response<T>, Thrown>) returns (r: Result<T, Thrown>, sent: Request)
      modifies store
      ensures sent == Request("GET", baseUrl + "/health", RequestHeaders(Item(old(store.items), TokenKey), []), NoBody)
      ensures r == ApiResult(fetch)
      ensures store.items == StorageAfter(old(store.items), fetch)
    {
      r, sent := ApiFetch("/health", RequestInit("GET", [], NoBody), fetch);
    }

    /** `listFiles(owner, soul, category?)` */
    method ListFiles<T>(ownerId: string, soulId: string, category: Option<string>, fetch: Result<Response<T>, Thrown>)
      returns (r: Result<T, Thrown>, sent: Request)
      modifies store
      ensures sent == Request("GET", baseUrl + ListFilesPath(ownerId, soulId, category),
                              RequestHeaders(Item(old(store.items), TokenKey), []), NoBody)
      ensures r == ApiResult(fetch)
      ensures store.items == StorageAfter(old(store.items), fetch)
    {
      r, sent := ApiFetch(ListFilesPath(ownerId, soulId, category), RequestInit("GET", [], NoBody), fetch);
    }

    /**
     * `uploadFiles(owner, soul, files)`: a multipart request outside `apiFetch`.
     * It sends only the bearer header, and any failed status, 401 included,
     * becomes "Upload failed: <status>" with the tokens left in place.
     */
    method UploadFiles<T>(ownerId: string, soulId: string, files: seq<string>, fetch: Result<Response<T>, Thrown>)
      returns (r: Result<T, Thrown>, sent: Request)
      ensures sent == Request("POST", baseUrl + "/souls/" + ownerId + "/" + soulId + "/upload",
                              Bearer(Item(store.items, TokenKey)), Files(files))
      ensures fetch.Err? ==> r == Err(fetch.error)
      ensures fetch.Ok? && IsOk(fetch.value.status) ==> r == fetch.value.json
      ensures fetch.Ok? && !IsOk(fetch.value.status) ==>
        r == Err(ErrorObject("Upload failed: " + Decimal(fetch.value.status)))
    {
      var token := GetToken();
      sent := Request("POST", baseUrl + "/souls/" + ownerId + "/" + soulId + "/upload", Bearer(token), Files(files));
      if fetch.Err? {
        r := Err(fetch.error);
      } else if !IsOk(fetch.value.status) {
        r := Err(ErrorObject("Upload failed: " + Decimal(fetch.value.status)));
      } else {
        r := fetch.value.json;
      }
    }
  }
}
