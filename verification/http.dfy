/** Requests the application hands to `fetch` and the replies it gets back.
    Nothing here talks to a network: a reply is an input of every operation
    that sends a request. */
module Http {
  import opened Wrappers

  datatype Method = Get | Post | Put | Delete

  /** The backend endpoints, below the configured base URL. Query parameters
      are kept as fields, so `encodeURIComponent` needs no modelling. */
  datatype Endpoint =
    | Register                                                   // POST /api/employees
    | SignIn(email: string, password: string)                    // POST /api/employees/signin?email=&password=
    | EmployeeRecord(id: string)                                 // /api/employees/{id}
    | PasswordChange(id: string, oldPassword: string, newPassword: string)
    | TodoList(id: string)                                       // /api/employees/{id}/todos
    | TodoItem(id: string, todoId: string)                       // /api/employees/{id}/todos/{todoId}

  /** A request body: literal text, or the JSON encoding of a value. */
  datatype Payload<D> = Text(text: string) | Json(data: D)

  type Headers = map<string, string>

  datatype Request<D> = Request(url: Endpoint, verb: Option<Method>, headers: Headers, body: Option<Payload<D>>)

  /** What the server answered; `ok` is a 2xx status. */
  datatype Response<B> = Response(status: nat, body: B) {
    predicate Ok() {
      200 <= status <= 299
    }
  }

  /** `fetch` either rejects (no answer) or resolves with a response. */
  datatype Reply<B> = NetworkFailure | Replied(response: Response<B>)

  /** JavaScript truthiness of a possibly-null string. */
  predicate Truthy(v: Option<string>) {
    v.Some? && v.value != ""
  }

  /** A possibly-null value placed in a template literal: `${null}` is "null". */
  function Interpolate(v: Option<string>): string {
    v.GetOr("null")
  }

  /** The `Authorization` value for a token as read from storage. */
  function Bearer(token: Option<string>): string {
    "Bearer " + Interpolate(token)
  }
}

/** What a screen shows or reports besides its own state. */
module Ui {

  /** `Alert.alert(title, message)`. */
  datatype Alert = Alert(title: string, message: string)

  /** A call of the `setIsAuthenticated` setter a screen receives, if any. */
  datatype SessionUpdate = NoUpdate | SetAuthenticated(value: bool)
}
