/** The SecureStore back end (`token-data/apiutils1.js`): the token and the
    user id are kept together as one JSON record under the key 'authData'.
    The record's JSON text is modelled by the record itself. Every storage
    call takes a `fault` flag: when it is set, the storage call throws. */
module SecureApi {
  import opened Wrappers
  import opened Http
  import opened Client
  import AsyncApi

  /** The stored record; `timestamp` is `Date.now()` at the time of saving.
      A value the caller passed as `undefined` is dropped by `JSON.stringify`
      and reads back as absent, hence the optional fields. */
  datatype AuthRecord = AuthRecord(token: Option<string>, userId: Option<string>, timestamp: int)

  type Store = map<string, AuthRecord>

  const RecordKey: string := "authData"

  /** `storeAuthData`: writes both values as one record; a fault is rethrown
      and leaves nothing written. */
  function StoreAuthData(s: Store, fault: bool, token: Option<string>, userId: Option<string>, now: int): (r: Result<Store, ApiError>)
    ensures fault <==> r.Err?
    ensures r.Err? ==> r.error == StorageFault
    ensures r.Ok? ==> RecordKey in r.value && r.value[RecordKey].token == token && r.value[RecordKey].userId == userId
    ensures r.Ok? ==> forall k | k != RecordKey :: (k in r.value <==> k in s) && (k in s ==> r.value[k] == s[k])
  {
    if fault then Err(StorageFault) else Ok(s[RecordKey := AuthRecord(token, userId, now)])
  }

  /** `getAuthData`: the record's two values as stored, or two nulls when
      there is no record or on a fault. A record may hold one value
      without the other. */
  function GetAuthData(s: Store, fault: bool): (d: AuthData)
    ensures (fault || RecordKey !in s) ==> d == AuthData(None, None)
    ensures !fault && RecordKey in s ==> d == AuthData(s[RecordKey].token, s[RecordKey].userId)
  {
    if fault then AuthData(None, None)
    else if RecordKey in s then AuthData(s[RecordKey].token, s[RecordKey].userId)
    else AuthData(None, None)
  }

  /** `hasAuthData`: whether the record is present; false on a fault. */
  function HasAuthData(s: Store, fault: bool): (b: bool)
    ensures b <==> !fault && RecordKey in s
  {
    if fault then false else RecordKey in s
  }

  /** `removeAuthData`: deletes the record and reports true; on a fault it
      reports false and the store is untouched. */
  function RemoveAuthData(s: Store, fault: bool): (r: (Store, bool))
    ensures r.1 <==> !fault
    ensures r.1 ==> RecordKey !in r.0
    ensures !r.1 ==> r.0 == s
    ensures forall k | k != RecordKey :: (k in r.0 <==> k in s) && (k in s ==> r.0[k] == s[k])
  {
    if fault then (s, false) else (s - {RecordKey}, true)
  }

  /** Loading after storing returns the stored pair, whatever the timestamp. */
  lemma StoreThenLoad(s: Store, token: Option<string>, userId: Option<string>, now: int, fault: bool)
    requires StoreAuthData(s, fault, token, userId, now).Ok?
    ensures GetAuthData(StoreAuthData(s, fault, token, userId, now).value, false) == AuthData(token, userId)
    ensures HasAuthData(StoreAuthData(s, fault, token, userId, now).value, false)
  {
  }

  /** A successful removal leaves nothing to find or load. */
  lemma RemoveThenCheck(s: Store, fault: bool)
    requires RemoveAuthData(s, fault).1
    ensures !HasAuthData(RemoveAuthData(s, fault).0, false)
    ensures GetAuthData(RemoveAuthData(s, fault).0, false) == AuthData(None, None)
  {
  }

  /** The check and the load agree: without a record the load yields two
      nulls, and with one it yields exactly the record's values. */
  lemma LoadReflectsPresence(s: Store)
    ensures !HasAuthData(s, false) ==> GetAuthData(s, false) == AuthData(None, None)
    ensures HasAuthData(s, false) ==> GetAuthData(s, false) == AuthData(s[RecordKey].token, s[RecordKey].userId)
  {
  }

  /** Presence is not completeness: after `storeAuthData(token, undefined)`
      the record exists, yet the load has a token and no id. */
  lemma HalfRecordIsPresent(s: Store, token: string, now: int)
    ensures var stored := StoreAuthData(s, false, Some(token), None, now).value;
      HasAuthData(stored, false) && GetAuthData(stored, false) == AuthData(Some(token), None)
  {
  }

  /** `makeAuthenticatedRequest` of this file as written: its first step
      calls `getAuthToken`, which the file neither defines nor imports, so
      every call throws a ReferenceError before any request is made. */
  function MakeAuthenticatedRequest<D>(s: Store, fault: bool, url: Endpoint, options: Options<D>): (r: Result<Request<D>, ApiError>)
    ensures r == Err(ReferenceError("getAuthToken"))
  {
    Err(ReferenceError("getAuthToken"))
  }

  /** `makePutRequest` of this file as written: it rethrows whatever
      `makeAuthenticatedRequest` throws. */
  function MakePutRequest<D, B>(s: Store, fault: bool, url: Endpoint, data: D, reply: Reply<B>): (r: Result<B, ApiError>)
    ensures r.Err?
  {
    match MakeAuthenticatedRequest(s, fault, url, PutOptions(data))
    case Err(e) => Err(e)
    case Ok(_) => ClassifyPut(reply)
  }

  /** As written, a PUT never reaches the server, even with a stored record
      and a server that would accept it. */
  lemma PutNeverSent(s: Store, token: string, userId: string, url: Endpoint, data: int)
    requires RecordKey in s && s[RecordKey] == AuthRecord(Some(token), Some(userId), 0) && token != ""
    ensures MakePutRequest(s, false, url, data, Replied(Response(200, data))) == Err(ReferenceError("getAuthToken"))
  {
  }

  /** The evidently intended request helper: the token comes from the stored
      record, then the shared client builds the request. */
  function MakeAuthenticatedRequestFromRecord<D>(s: Store, fault: bool, url: Endpoint, options: Options<D>): (r: Result<Request<D>, ApiError>)
    ensures r.Err? <==> (fault || RecordKey !in s || !Truthy(s[RecordKey].token))
    ensures r.Ok? ==> r.value.url == url && r.value.verb == options.verb
    ensures r.Ok? ==> r.value.headers.Keys == options.headers.Keys + {"Authorization", "Content-Type"}
    ensures r.Ok? ==> forall k | k in options.headers :: r.value.headers[k] == options.headers[k]
    ensures r.Ok? && "Authorization" !in options.headers ==> r.value.headers["Authorization"] == "Bearer " + s[RecordKey].token.value
  {
    AuthorizedRequest(GetAuthData(s, fault).token, url, options)
  }

  /** The evidently intended `makePutRequest`: the same status handling as the
      AsyncStorage back end. */
  function MakePutRequestFromRecord<D, B>(s: Store, fault: bool, url: Endpoint, data: D, reply: Reply<B>): (r: Result<B, ApiError>)
    ensures (fault || RecordKey !in s || !Truthy(s[RecordKey].token)) ==> r == Err(MissingToken)
    ensures !(fault || RecordKey !in s || !Truthy(s[RecordKey].token)) ==>
      match reply
      case NetworkFailure => r == Err(NetworkError)
      case Replied(resp) =>
        && (resp.Ok() ==> r == Ok(resp.body))
        && (resp.status == 401 ==> r == Err(AuthExpired))
        && (!resp.Ok() && resp.status != 401 ==> r == Err(HttpStatus(resp.status)))
  {
    match MakeAuthenticatedRequestFromRecord(s, fault, url, PutOptions(data))
    case Err(e) => Err(e)
    case Ok(_) => ClassifyPut(reply)
  }

  /** Given the same token, the corrected helper answers exactly as the
      AsyncStorage back end does, for every server reply. */
  lemma PutMatchesAsyncBackEnd<D, B>(s: Store, a: AsyncApi.Store, url: Endpoint, data: D, reply: Reply<B>)
    requires RecordKey in s && AsyncApi.TokenKey in a && s[RecordKey].token == Some(a[AsyncApi.TokenKey])
    ensures MakePutRequestFromRecord(s, false, url, data, reply) == AsyncApi.MakePutRequest(a, false, url, data, reply)
  {
  }
}
