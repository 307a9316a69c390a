/** The AsyncStorage back end (`token-data/apiutils.js`): the token and the
    user id live under two separate keys. Every storage call takes a `fault`
    flag: when it is set, the underlying storage call throws. */
module AsyncApi {
  import opened Wrappers
  import opened Http
  import opened Client

  type Store = map<string, string>

  const TokenKey: string := "token"
  const UserIdKey: string := "userId"

  /** `AsyncStorage.getItem(key)`: null for a missing key. */
  function Lookup(s: Store, key: string): Option<string> {
    if key in s then Some(s[key]) else None
  }

  /** `getAuthToken`: the stored token, or null when absent or on a fault. */
  function GetAuthToken(s: Store, fault: bool): (t: Option<string>)
    ensures fault ==> t.None?
    ensures !fault ==> (t.Some? <==> TokenKey in s)
    ensures t.Some? ==> t.value == s[TokenKey]
  {
    if fault then None else Lookup(s, TokenKey)
  }

  /** `getAuthData`: both stored values, or two nulls on a fault. */
  function GetAuthData(s: Store, fault: bool): (d: AuthData)
    ensures fault ==> d == AuthData(None, None)
    ensures !fault ==> (d.token.Some? <==> TokenKey in s) && (d.userId.Some? <==> UserIdKey in s)
    ensures d.token.Some? ==> d.token.value == s[TokenKey]
    ensures d.userId.Some? ==> d.userId.value == s[UserIdKey]
  {
    if fault then AuthData(None, None) else AuthData(Lookup(s, TokenKey), Lookup(s, UserIdKey))
  }

  /** The token `getAuthData` reports is the one `getAuthToken` reports. */
  lemma TokenReadsAgree(s: Store, fault: bool)
    ensures GetAuthData(s, fault).token == GetAuthToken(s, fault)
  {
  }

  /** `clearAuthData`: removes both keys and reports true; on a fault the
      store is untouched and it reports false. */
  function ClearAuthData(s: Store, fault: bool): (r: (Store, bool))
    ensures r.1 <==> !fault
    ensures fault ==> r.0 == s
    ensures !fault ==> TokenKey !in r.0 && UserIdKey !in r.0
    ensures forall k | k != TokenKey && k != UserIdKey :: (k in r.0 <==> k in s) && (k in s ==> r.0[k] == s[k])
  {
    if fault then (s, false) else (s - {TokenKey, UserIdKey}, true)
  }

  /** Clearing twice is clearing once. */
  lemma ClearIsIdempotent(s: Store)
    ensures ClearAuthData(ClearAuthData(s, false).0, false) == ClearAuthData(s, false)
  {
    var once := s - {TokenKey, UserIdKey};
    assert once - {TokenKey, UserIdKey} == once;
  }

  /** After a successful clear both values read back as null. */
  lemma LoadAfterClear(s: Store, fault: bool)
    ensures GetAuthData(ClearAuthData(s, false).0, fault) == AuthData(None, None)
  {
  }

  /** `AsyncStorage.multiSet([['token', t], ['userId', u]])` as the sign-in and
      sign-up screens call it: on a fault the error is logged and swallowed
      and the store keeps its previous contents. */
  function SaveCredentials(s: Store, fault: bool, token: string, userId: string): (s': Store)
    ensures fault ==> s' == s
    ensures !fault ==> TokenKey in s' && s'[TokenKey] == token && UserIdKey in s' && s'[UserIdKey] == userId
    ensures forall k | k != TokenKey && k != UserIdKey :: (k in s' <==> k in s) && (k in s ==> s'[k] == s[k])
  {
    if fault then s else s[TokenKey := token][UserIdKey := userId]
  }

  /** What was saved is what is loaded. */
  lemma SaveThenLoad(s: Store, token: string, userId: string)
    ensures GetAuthData(SaveCredentials(s, false, token, userId), false) == AuthData(Some(token), Some(userId))
  {
  }

  /** `AsyncStorage.removeItem(key)`. */
  function RemoveItem(s: Store, fault: bool, key: string): (r: Result<Store, ApiError>)
    ensures fault <==> r.Err?
    ensures r.Ok? ==> r.value == s - {key}
  {
    if fault then Err(StorageFault) else Ok(s - {key})
  }

  /** `makeAuthenticatedRequest` of this back end: the token is read with
      `getAuthToken`, so a storage fault looks like a missing token. */
  function MakeAuthenticatedRequest<D>(s: Store, fault: bool, url: Endpoint, options: Options<D>): (r: Result<Request<D>, ApiError>)
    ensures r.Err? <==> (fault || TokenKey !in s || s[TokenKey] == "")
    ensures r.Err? ==> r.error == MissingToken
    ensures r.Ok? ==> r.value.url == url && r.value.verb == options.verb
    ensures r.Ok? ==> r.value.headers.Keys == options.headers.Keys + {"Authorization", "Content-Type"}
    ensures r.Ok? ==> forall k | k in options.headers :: r.value.headers[k] == options.headers[k]
    ensures r.Ok? && "Authorization" !in options.headers ==> r.value.headers["Authorization"] == "Bearer " + s[TokenKey]
  {
    AuthorizedRequest(GetAuthToken(s, fault), url, options)
  }

  /** `makePutRequest`: no token means no request; otherwise the parsed body
      of a 2xx answer, 'Authentication expired' on 401, and an HTTP error with
      the status on any other answer. */
  function MakePutRequest<D, B>(s: Store, fault: bool, url: Endpoint, data: D, reply: Reply<B>): (r: Result<B, ApiError>)
    ensures (fault || TokenKey !in s || s[TokenKey] == "") ==> r == Err(MissingToken)
    ensures !(fault || TokenKey !in s || s[TokenKey] == "") ==>
      match reply
      case NetworkFailure => r == Err(NetworkError)
      case Replied(resp) =>
        && (resp.Ok() ==> r == Ok(resp.body))
        && (resp.status == 401 ==> r == Err(AuthExpired))
        && (!resp.Ok() && resp.status != 401 ==> r == Err(HttpStatus(resp.status)))
  {
    match MakeAuthenticatedRequest(s, fault, url, PutOptions(data))
    case Err(e) => Err(e)
    case Ok(_) => ClassifyPut(reply)
  }
}
