/** The authenticated request client shared, line for line, by both storage
    back ends (`makeAuthenticatedRequest` and `makePutRequest`), apart from
    where the token is read from. */
module Client {
  import opened Wrappers
  import opened Text
  import opened Http

  /** What the helpers throw. */
  datatype ApiError =
    | MissingToken                 // no usable token in storage
    | AuthExpired                  // the server answered 401
    | HttpStatus(status: nat)      // any other non-2xx answer
    | NetworkError                 // fetch rejected
    | StorageFault                 // the storage layer threw
    | ReferenceError(name: string) // an identifier the code never defined

  function ErrorMessage(e: ApiError): string {
    match e
    case MissingToken => "No authentication token found"
    case AuthExpired => "Authentication expired"
    case HttpStatus(n) => "HTTP error! status: " + Decimal(n)
    case NetworkError => "Network request failed"
    case StorageFault => "Storage error"
    case ReferenceError(name) => name + " is not defined"
  }

  /** A stored credential as the `getAuthData` helpers return it. */
  datatype AuthData = AuthData(token: Option<string>, userId: Option<string>)

  /** The `options` argument of `makeAuthenticatedRequest`. */
  datatype Options<D> = Options(verb: Option<Method>, headers: Headers, body: Option<Payload<D>>, data: Option<D>)

  /** `options = {}`. */
  function NoOptions<D>(): Options<D> {
    Options(None, map[], None, None)
  }

  function DefaultHeaders(token: string): Headers {
    map["Authorization" := "Bearer " + token, "Content-Type" := "application/json"]
  }

  /** JavaScript truthiness of a request body: only the empty text is falsy. */
  predicate BodyTruthy<D>(body: Option<Payload<D>>) {
    body.Some? && (body.value.Json? || body.value.text != "")
  }

  /** The body of a PUT: the caller's body when truthy, else the JSON
      encoding of `data` (no body at all when `data` is absent too). */
  function PutBody<D>(options: Options<D>): Option<Payload<D>> {
    if BodyTruthy(options.body) then options.body
    else if options.data.Some? then Some(Json(options.data.value))
    else None
  }

  /** `makeAuthenticatedRequest` given the token storage produced: refuses
      without a truthy token, otherwise sends the caller's request with the
      default headers overridden key by key by the caller's. */
  function AuthorizedRequest<D>(token: Option<string>, url: Endpoint, options: Options<D>): (r: Result<Request<D>, ApiError>)
    ensures r.Err? <==> !Truthy(token)
    ensures r.Err? ==> r.error == MissingToken
    ensures r.Ok? ==> r.value.url == url && r.value.verb == options.verb
    ensures r.Ok? ==> r.value.headers.Keys == options.headers.Keys + {"Authorization", "Content-Type"}
    ensures r.Ok? ==> forall k | k in options.headers :: r.value.headers[k] == options.headers[k]
    ensures r.Ok? && "Authorization" !in options.headers ==> r.value.headers["Authorization"] == "Bearer " + token.value
    ensures r.Ok? && "Content-Type" !in options.headers ==> r.value.headers["Content-Type"] == "application/json"
    ensures r.Ok? && options.verb == Some(Put) ==>
      r.value.body == (if BodyTruthy(options.body) then options.body
                       else if options.data.Some? then Some(Json(options.data.value)) else None)
    ensures r.Ok? && options.verb != Some(Put) ==> r.value.body == options.body
  {
    if !Truthy(token) then Err(MissingToken)
    else
      var headers := DefaultHeaders(token.value) + options.headers;
      if options.verb == Some(Put) then Ok(Request(url, options.verb, headers, PutBody(options)))
      else Ok(Request(url, options.verb, headers, options.body))
  }

  /** The options `makePutRequest` passes. */
  function PutOptions<D>(data: D): Options<D> {
    Options(Some(Put), map[], None, Some(data))
  }

  /** `makePutRequest` sends exactly the default headers and the JSON
      encoding of its data. */
  lemma PutRequestCarriesData<D>(token: Option<string>, url: Endpoint, data: D)
    requires Truthy(token)
    ensures AuthorizedRequest(token, url, PutOptions(data))
         == Ok(Request(url, Some(Put), DefaultHeaders(token.value), Some(Json(data))))
  {
    assert DefaultHeaders(token.value) + map[] == DefaultHeaders(token.value);
  }

  /** How `makePutRequest` treats the answer: the body on 2xx, an expiry
      error on 401, an HTTP error carrying the status otherwise. */
  function ClassifyPut<B>(reply: Reply<B>): Result<B, ApiError> {
    match reply
    case NetworkFailure => Err(NetworkError)
    case Replied(resp) =>
      if resp.Ok() then Ok(resp.body)
      else if resp.status == 401 then Err(AuthExpired)
      else Err(HttpStatus(resp.status))
  }

  /** The HTTP error message names the status, which can be read back from it. */
  lemma {:induction false} HttpErrorNamesStatus(n: nat)
    ensures |ErrorMessage(HttpStatus(n))| > |"HTTP error! status: "|
    ensures ErrorMessage(HttpStatus(n))[..|"HTTP error! status: "|] == "HTTP error! status: "
    ensures DecimalValue(ErrorMessage(HttpStatus(n))[|"HTTP error! status: "|..]) == n
  {
    var prefix := "HTTP error! status: ";
    var m := ErrorMessage(HttpStatus(n));
    assert m == prefix + Decimal(n);
    assert m[|prefix|..] == Decimal(n);
    DecimalRoundTrip(n);
  }
}
