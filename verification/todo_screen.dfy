/** The to-do tab (`screens/TodoScreen.jsx`): the signed-in employee's task
    list, kept in step with the server through the shared client. The
    screen calls a `setIsAuthenticated` it never receives; each such call
    throws, and the surrounding `catch` swallows it, so nothing here ever
    changes the session. */
module TodoScreen {
  import opened Wrappers
  import opened Text
  import opened Http
  import opened Client
  import opened Selection
  import AsyncApi

  datatype Todo = Todo(id: string, taskName: string, date: string, completed: bool, isDone: bool)

  /** The JSON body of an add or an update. */
  datatype TodoPayload = TodoPayload(taskName: string, date: string, completed: bool, isDone: bool, employeeId: Option<string>)

  datatype State = State(
    todos: seq<Todo>,
    newTask: string,
    selectedDate: string,
    editingTask: Option<Todo>,
    userId: Option<string>)

  /** The tab as it mounts; `today` is the preset date. */
  function Initial(today: string): (st: State)
    ensures st.todos == [] && st.newTask == "" && st.editingTask.None? && st.userId.None?
  {
    State([], "", today, None, None)
  }

  /** The result of one handler: the new state and the requests sent. */
  datatype Outcome = Outcome(state: State, sent: seq<Request<TodoPayload>>)

  /** `fetchTodos(employeeId)`: a 2xx answer replaces the list; a refused
      request, a failed fetch and any other answer (a 401 included) leave
      the screen as it was. */
  function FetchTodos(st: State, employeeId: string, store: AsyncApi.Store, fault: bool, reply: Reply<seq<Todo>>): (o: Outcome)
    ensures |o.sent| <= 1
    ensures |o.sent| == 1 <==> AsyncApi.MakeAuthenticatedRequest(store, fault, TodoList(employeeId), NoOptions<TodoPayload>()).Ok?
    ensures |o.sent| == 1 ==> o.sent[0].url == TodoList(employeeId) && o.sent[0].verb.None? && o.sent[0].body.None?
    ensures |o.sent| == 1 && reply.Replied? && reply.response.Ok() ==> o.state == st.(todos := reply.response.body)
    ensures !(|o.sent| == 1 && reply.Replied? && reply.response.Ok()) ==> o.state == st
  {
    match AsyncApi.MakeAuthenticatedRequest(store, fault, TodoList(employeeId), NoOptions<TodoPayload>())
    case Err(_) => Outcome(st, [])
    case Ok(q) =>
      if reply.Replied? && reply.response.Ok() then Outcome(st.(todos := reply.response.body), [q])
      else Outcome(st, [q])
  }

  /** `loadUserId`, run on mount: with a stored id and token the id is kept
      and the list fetched; otherwise nothing happens. */
  function LoadUserId(st: State, store: AsyncApi.Store, readFault: bool, fetchFault: bool, reply: Reply<seq<Todo>>): (o: Outcome)
    ensures var auth := AsyncApi.GetAuthData(store, readFault);
      !(Truthy(auth.userId) && Truthy(auth.token)) ==> o == Outcome(st, [])
    ensures var auth := AsyncApi.GetAuthData(store, readFault);
      Truthy(auth.userId) && Truthy(auth.token) ==>
        && o.state.userId == auth.userId
        && |o.sent| <= 1
        && (|o.sent| == 1 <==> Truthy(AsyncApi.GetAuthToken(store, fetchFault)))
        && (|o.sent| == 1 ==> o.sent[0].url == TodoList(auth.userId.value) && o.sent[0].verb.None? && o.sent[0].body.None?)
        && o.state.todos == (if |o.sent| == 1 && reply.Replied? && reply.response.Ok() then reply.response.body else st.todos)
        && o.state.(userId := st.userId, todos := st.todos) == st
    ensures o.state.userId.Some? && o.state.userId != st.userId ==> Truthy(o.state.userId)
  {
    var auth := AsyncApi.GetAuthData(store, readFault);
    if !Truthy(auth.userId) || !Truthy(auth.token) then Outcome(st, [])
    else FetchTodos(st.(userId := auth.userId), auth.userId.value, store, fetchFault, reply)
  }

  /** After a successful save of a non-empty token and id, mounting the tab
      keeps that id and asks for that employee's list. */
  lemma SavedCredentialsAreLoaded(st: State, store: AsyncApi.Store, token: string, id: string, reply: Reply<seq<Todo>>)
    requires token != "" && id != ""
    ensures var o := LoadUserId(st, AsyncApi.SaveCredentials(store, false, token, id), false, false, reply);
      && o.state.userId == Some(id)
      && |o.sent| == 1 && o.sent[0].url == TodoList(id)
      && o.sent[0].headers["Authorization"] == "Bearer " + token
  {
    AsyncApi.SaveThenLoad(store, token, id);
  }

  /** The body of an add or an update: the typed task, the chosen date, the
      flags of the task being edited (false for a new one) and the id. */
  function PayloadOf(st: State): (p: TodoPayload)
    ensures p.taskName == st.newTask && p.date == st.selectedDate && p.employeeId == st.userId
    ensures st.editingTask.None? ==> !p.completed && !p.isDone
    ensures st.editingTask.Some? ==> p.completed == st.editingTask.value.completed && p.isDone == st.editingTask.value.isDone
  {
    match st.editingTask
    case None => TodoPayload(st.newTask, st.selectedDate, false, false, st.userId)
    case Some(e) => TodoPayload(st.newTask, st.selectedDate, e.completed, e.isDone, st.userId)
  }

  /** `addOrUpdateTodo`. A blank task sends nothing. An edited task is PUT to
      its own address, a new one POSTed to the list; a 2xx answer clears the
      input (the date back to `today`), ends the edit and fetches the list
      again for the id in state. */
  function AddOrUpdateTodo(st: State, today: string, store: AsyncApi.Store, fault: bool, reply: Reply<()>,
                           refetchFault: bool, refetchReply: Reply<seq<Todo>>): (o: Outcome)
    ensures IsBlank(st.newTask) ==> o == Outcome(st, [])
    ensures |o.sent| >= 1 <==> !IsBlank(st.newTask) && Truthy(AsyncApi.GetAuthToken(store, fault))
    ensures |o.sent| >= 1 ==>
      && o.sent[0].url == (if st.editingTask.Some? then TodoItem(Interpolate(st.userId), st.editingTask.value.id)
                           else TodoList(Interpolate(st.userId)))
      && o.sent[0].verb == Some(if st.editingTask.Some? then Put else Post)
      && o.sent[0].body == Some(Json(PayloadOf(st)))
    ensures |o.sent| >= 1 && reply.Replied? && reply.response.Ok() ==>
      var reset := st.(newTask := "", selectedDate := today, editingTask := None);
      o == Outcome(FetchTodos(reset, Interpolate(st.userId), store, refetchFault, refetchReply).state,
                   [o.sent[0]] + FetchTodos(reset, Interpolate(st.userId), store, refetchFault, refetchReply).sent)
    ensures !(|o.sent| >= 1 && reply.Replied? && reply.response.Ok()) ==> o.state == st && |o.sent| <= 1
  {
    if IsBlank(st.newTask) then Outcome(st, [])
    else
      var verb := if st.editingTask.Some? then Put else Post;
      var url := if st.editingTask.Some? then TodoItem(Interpolate(st.userId), st.editingTask.value.id)
                 else TodoList(Interpolate(st.userId));
      var options := Options(Some(verb), map[], Some(Json(PayloadOf(st))), None);
      match AsyncApi.MakeAuthenticatedRequest(store, fault, url, options)
      case Err(_) => Outcome(st, [])
      case Ok(q) =>
        if reply.Replied? && reply.response.Ok() then
          var reset := st.(newTask := "", selectedDate := today, editingTask := None);
          var refetch := FetchTodos(reset, Interpolate(st.userId), store, refetchFault, refetchReply);
          Outcome(refetch.state, [q] + refetch.sent)
        else Outcome(st, [q])
  }

  /** `deleteTodo(todoId)`: a 2xx answer drops every task with that id and
      keeps every other task, repeats included, in order; anything else
      changes nothing. */
  function DeleteTodo(st: State, todoId: string, store: AsyncApi.Store, fault: bool, reply: Reply<()>): (o: Outcome)
    ensures |o.sent| <= 1
    ensures |o.sent| == 1 <==> Truthy(AsyncApi.GetAuthToken(store, fault))
    ensures |o.sent| == 1 ==> o.sent[0].url == TodoItem(Interpolate(st.userId), todoId) && o.sent[0].verb == Some(Delete)
    ensures |o.sent| == 1 && reply.Replied? && reply.response.Ok() ==>
      && (forall t :: t in o.state.todos <==> t in st.todos && t.id != todoId)
      && (forall t :: multiset(o.state.todos)[t] == (if t.id != todoId then multiset(st.todos)[t] else 0))
      && Subsequence(o.state.todos, st.todos)
      && o.state.(todos := st.todos) == st
    ensures !(|o.sent| == 1 && reply.Replied? && reply.response.Ok()) ==> o.state == st
  {
    match AsyncApi.MakeAuthenticatedRequest(store, fault, TodoItem(Interpolate(st.userId), todoId), Options(Some(Delete), map[], None, None))
    case Err(_) => Outcome(st, [])
    case Ok(q) =>
      if reply.Replied? && reply.response.Ok() then Outcome(st.(todos := Keep(st.todos, (t: Todo) => t.id != todoId)), [q])
      else Outcome(st, [q])
  }

  /** Deleting the same id a second time leaves the list as the first
      deletion left it. */
  lemma DeleteIsIdempotent(st: State, todoId: string, store: AsyncApi.Store)
    requires Truthy(AsyncApi.GetAuthToken(store, false))
    ensures var once := DeleteTodo(st, todoId, store, false, Replied(Response(200, ()))).state;
      DeleteTodo(once, todoId, store, false, Replied(Response(200, ()))).state == once
  {
    KeepIdempotent(st.todos, (t: Todo) => t.id != todoId);
  }

  /** The Edit button: the task's name and date go into the inputs and the
      task becomes the one being edited. */
  function StartEdit(st: State, item: Todo): (r: State)
    ensures r.newTask == item.taskName && r.selectedDate == item.date && r.editingTask == Some(item)
    ensures r.todos == st.todos && r.userId == st.userId
  {
    st.(newTask := item.taskName, selectedDate := item.date, editingTask := Some(item))
  }

  /** Saving after Edit updates that very task in place and keeps its flags. */
  lemma EditThenSaveTargetsItem(st: State, item: Todo, today: string, store: AsyncApi.Store,
                                reply: Reply<()>, refetchReply: Reply<seq<Todo>>)
    requires !IsBlank(item.taskName) && Truthy(AsyncApi.GetAuthToken(store, false))
    ensures var o := AddOrUpdateTodo(StartEdit(st, item), today, store, false, reply, false, refetchReply);
      && o.sent[0].url == TodoItem(Interpolate(st.userId), item.id)
      && o.sent[0].verb == Some(Put)
      && o.sent[0].body == Some(Json(TodoPayload(item.taskName, item.date, item.completed, item.isDone, st.userId)))
  {
  }

  /** A 401 from the server leaves the screen as it was on every operation:
      the session-ending call it attempts cannot run. */
  lemma UnauthorizedChangesNothing(st: State, todoId: string, today: string, store: AsyncApi.Store, body: seq<Todo>)
    ensures FetchTodos(st, Interpolate(st.userId), store, false, Replied(Response(401, body))).state == st
    ensures DeleteTodo(st, todoId, store, false, Replied(Response(401, ()))).state == st
    ensures AddOrUpdateTodo(st, today, store, false, Replied(Response(401, ())), false, Replied(Response(200, body))).state == st
  {
  }
}
