/**
 * The App component's state and handlers as transitions on a value
 * (src/App.tsx:67-193). Every transition returns the new state, including
 * the log of requests sent so far; a response that the handler waits for is
 * an argument (None for a failed read).
 */
module Controller {
  import opened Wrappers
  import opened Filter
  import opened TodoModel
  import opened Http

  /**
   * The component state (src/App.tsx:67-75), the filter that the memoised
   * edit handler captured on the first render, and the requests sent.
   */
  datatype State = State(
    filterStatusCode: FilterStatusCode,
    newTodoText: string,
    newTodoDeadline: string,
    newTodoUser: string,
    userList: seq<User>,
    todoList: seq<Todo>,
    editFilter: FilterStatusCode,
    requests: seq<Request>)

  /** Everything but the request log and the task list agrees. */
  predicate SameExceptTodos(a: State, b: State)
  {
    a.(todoList := b.todoList, requests := b.requests) == b
  }

  /** The state of the first render: the useState defaults. */
  function Initial(): (s: State)
    ensures s.filterStatusCode == All && s.editFilter == s.filterStatusCode
    ensures s.newTodoText == "" && s.newTodoDeadline == "" && s.newTodoUser == ""
    ensures s.userList == [] && s.todoList == [] && s.requests == []
  {
    State(All, "", "", "", [], [], All, [])
  }

  /** fetchUsers: read the user list; a failed read leaves the list as it was. */
  function FetchUsers(s: State, response: Option<seq<User>>): (r: State)
    ensures r.requests == s.requests + [GetUsers]
    ensures r.userList == (if response.Some? then response.value else s.userList)
    ensures r.(userList := s.userList, requests := s.requests) == s
  {
    var sent := s.(requests := s.requests + [GetUsers]);
    match response
    case Some(users) => sent.(userList := users)
    case None => sent
  }

  /**
   * fetchTodos: read the task list under a filter; a successful read
   * replaces the list wholesale, a failed one leaves it as it was, and
   * nothing else changes.
   */
  function FetchTodos(s: State, selectFilter: FilterStatusCode, response: Option<seq<Todo>>): (r: State)
    ensures r.requests == s.requests + [GetTodos(TodoParams(selectFilter))]
    ensures r.todoList == (if response.Some? then response.value else s.todoList)
    ensures SameExceptTodos(r, s)
  {
    var sent := s.(requests := s.requests + [GetTodos(TodoParams(selectFilter))]);
    match response
    case Some(todos) => sent.(todoList := todos)
    case None => sent
  }

  /** The mount effect: read the users, then the tasks under All. */
  function Mount(s: State, users: Option<seq<User>>, todos: Option<seq<Todo>>): (r: State)
    ensures r.requests == s.requests + [GetUsers, GetTodos(TodoParams(All))]
    ensures r.userList == (if users.Some? then users.value else s.userList)
    ensures r.todoList == (if todos.Some? then todos.value else s.todoList)
    ensures r.(userList := s.userList, todoList := s.todoList, requests := s.requests) == s
  {
    FetchTodos(FetchUsers(s, users), All, todos)
  }

  /** handleFilter: select a filter, then read the list under it. */
  function HandleFilter(s: State, selectFilter: FilterStatusCode, response: Option<seq<Todo>>): (r: State)
    ensures r.filterStatusCode == selectFilter
    ensures r.requests == s.requests + [GetTodos(TodoParams(selectFilter))]
    ensures r.todoList == (if response.Some? then response.value else s.todoList)
    ensures SameExceptTodos(r.(filterStatusCode := s.filterStatusCode), s)
  {
    FetchTodos(s.(filterStatusCode := selectFilter), selectFilter, response)
  }

  /** handleTodoTextChange: any text, the empty one included, becomes the draft's text. */
  function HandleTodoTextChange(s: State, value: string): (r: State)
    ensures r.newTodoText == value && r.(newTodoText := s.newTodoText) == s
  {
    s.(newTodoText := value)
  }

  /**
   * handleTodoDeadlineChange: a null date is ignored; otherwise the date's
   * text (its toString(), taken as given) becomes the draft's deadline.
   */
  function HandleTodoDeadlineChange(s: State, value: Option<string>): (r: State)
    ensures value.None? ==> r == s
    ensures value.Some? ==> r.newTodoDeadline == value.value && r.(newTodoDeadline := s.newTodoDeadline) == s
  {
    match value
    case None => s
    case Some(text) => s.(newTodoDeadline := text)
  }

  /** handleTodoUserChange: any user id, the empty one of "None" included, becomes the draft's assignee. */
  function HandleTodoUserChange(s: State, userId: string): (r: State)
    ensures r.newTodoUser == userId && r.(newTodoUser := s.newTodoUser) == s
  {
    s.(newTodoUser := userId)
  }

  /** The create request a draft turns into. */
  function PostOf(s: State): Request
  {
    PostTodo(s.newTodoText, DateFrom(s.newTodoDeadline), s.newTodoUser)
  }

  /**
   * handleTodoSubmit: nothing happens without text. Otherwise POST the draft,
   * then (whether or not the POST succeeded) read the list under the active
   * filter and clear the text only; deadline and assignee are kept.
   */
  function HandleTodoSubmit(s: State, post: MutationOutcome, response: Option<seq<Todo>>): (r: State)
    ensures s.newTodoText == "" ==> r == s
    ensures s.newTodoText != "" ==>
      && r.requests == s.requests + [PostTodo(s.newTodoText, DateFrom(s.newTodoDeadline), s.newTodoUser),
                                     GetTodos(TodoParams(s.filterStatusCode))]
      && r.newTodoText == ""
      && r.newTodoDeadline == s.newTodoDeadline && r.newTodoUser == s.newTodoUser
      && r.filterStatusCode == s.filterStatusCode && r.userList == s.userList && r.editFilter == s.editFilter
      && r.todoList == (if response.Some? then response.value else s.todoList)
  {
    if s.newTodoText == "" then s
    else
      var posted := s.(requests := s.requests + [PostOf(s)]);
      FetchTodos(posted, s.filterStatusCode, response).(newTodoText := "")
  }

  /**
   * handleEdit: PUT a one-key patch to the task, then (whether or not it
   * succeeded) read the list under the filter the memoised handler captured,
   * not the active one.
   */
  function HandleEdit(s: State, id: string, field: Field, put: MutationOutcome, response: Option<seq<Todo>>): (r: State)
    ensures r.requests == s.requests + [PutTodo(id, PatchBody(field)), GetTodos(TodoParams(s.editFilter))]
    ensures r.todoList == (if response.Some? then response.value else s.todoList)
    ensures SameExceptTodos(r, s)
  {
    FetchTodos(s.(requests := s.requests + [PutTodo(id, PatchBody(field))]), s.editFilter, response)
  }

  /** handleDetailClick: the trash icon of a row flips that row's trashed flag. */
  function HandleDetailClick(s: State, row: Todo, put: MutationOutcome, response: Option<seq<Todo>>): (r: State)
    ensures r.requests == s.requests + [PutTodo(row.id, map["is_trashed" := JBool(!row.isTrashed)]),
                                        GetTodos(TodoParams(s.editFilter))]
    ensures r.todoList == (if response.Some? then response.value else s.todoList)
    ensures SameExceptTodos(r, s)
  {
    HandleEdit(s, row.id, TrashToggle(row), put, response)
  }

  /** The checkbox of a row flips that row's completed flag. */
  function HandleCompletedChange(s: State, row: Todo, put: MutationOutcome, response: Option<seq<Todo>>): (r: State)
    ensures r.requests == s.requests + [PutTodo(row.id, map["is_completed" := JBool(!row.isCompleted)]),
                                        GetTodos(TodoParams(s.editFilter))]
    ensures r.todoList == (if response.Some? then response.value else s.todoList)
    ensures SameExceptTodos(r, s)
  {
    HandleEdit(s, row.id, CompletedToggle(row), put, response)
  }

  /**
   * handleEmptyTrashBox: PUT to the trash box, then (whether or not it
   * succeeded) read the list under the active filter.
   */
  function HandleEmptyTrashBox(s: State, put: MutationOutcome, response: Option<seq<Todo>>): (r: State)
    ensures r.requests == s.requests + [PutTrashBox, GetTodos(TodoParams(s.filterStatusCode))]
    ensures r.todoList == (if response.Some? then response.value else s.todoList)
    ensures SameExceptTodos(r, s)
  {
    FetchTodos(s.(requests := s.requests + [PutTrashBox]), s.filterStatusCode, response)
  }

  /** The checkbox of a row is disabled while the row is trashed. */
  predicate CheckboxDisabled(row: Todo)
  {
    row.isTrashed
  }

  /** The empty-trash button is rendered only under the Trashed filter. */
  predicate EmptyTrashOffered(s: State)
  {
    s.filterStatusCode == Trashed
  }

  /** A user interaction with the rendered board, with the responses it meets. */
  datatype Event =
    | SelectFilter(filter: FilterStatusCode, response: Option<seq<Todo>>)
    | TypeText(text: string)
    | PickDeadline(date: Option<string>)
    | PickUser(userId: string)
    | ClickSubmit(post: MutationOutcome, response: Option<seq<Todo>>)
    | ClickCheckbox(row: Todo, put: MutationOutcome, response: Option<seq<Todo>>)
    | ClickTrashIcon(row: Todo, put: MutationOutcome, response: Option<seq<Todo>>)
    | ClickEmptyTrash(put: MutationOutcome, response: Option<seq<Todo>>)

  /** A row the table shows: the grid renders the task list and nothing else. */
  predicate Displayed(s: State, row: Todo)
  {
    row in s.todoList
  }

  /**
   * What an interaction does: it reaches its handler, except that a disabled
   * checkbox and an empty-trash button that is not rendered do nothing, and
   * a row the table does not show cannot be clicked.
   */
  function Step(s: State, e: Event): (r: State)
    ensures e.ClickCheckbox? && (CheckboxDisabled(e.row) || !Displayed(s, e.row)) ==> r == s
    ensures e.ClickTrashIcon? && !Displayed(s, e.row) ==> r == s
    ensures e.ClickEmptyTrash? && !EmptyTrashOffered(s) ==> r == s
    ensures r.editFilter == s.editFilter
    ensures s.requests <= r.requests
  {
    match e
    case SelectFilter(f, resp) => HandleFilter(s, f, resp)
    case TypeText(t) => HandleTodoTextChange(s, t)
    case PickDeadline(d) => HandleTodoDeadlineChange(s, d)
    case PickUser(u) => HandleTodoUserChange(s, u)
    case ClickSubmit(o, resp) => HandleTodoSubmit(s, o, resp)
    case ClickCheckbox(row, o, resp) =>
      if !Displayed(s, row) || CheckboxDisabled(row) then s else HandleCompletedChange(s, row, o, resp)
    case ClickTrashIcon(row, o, resp) =>
      if !Displayed(s, row) then s else HandleDetailClick(s, row, o, resp)
    case ClickEmptyTrash(o, resp) =>
      if EmptyTrashOffered(s) then HandleEmptyTrashBox(s, o, resp) else s
  }

  /** The state after a sequence of interactions. */
  function Run(s: State, events: seq<Event>): State
    decreases |events|
  {
    if events == [] then s else Run(Step(s, events[0]), events[1..])
  }

  /** Interactions only ever append to the request log. */
  lemma {:induction false} RunExtendsLog(s: State, events: seq<Event>)
    ensures s.requests <= Run(s, events).requests
    decreases |events|
  {
    if events != [] {
      RunExtendsLog(Step(s, events[0]), events[1..]);
    }
  }

  /**
   * A session: the first render, its mount effect, then the user's
   * interactions. Whatever happens, GET /user and the read under All come first.
   */
  function Session(users: Option<seq<User>>, todos: Option<seq<Todo>>, events: seq<Event>): (r: State)
    ensures |r.requests| >= 2 && r.requests[..2] == [GetUsers, GetTodos(TodoParams(All))]
  {
    var mounted := Mount(Initial(), users, todos);
    RunExtendsLog(mounted, events);
    Run(mounted, events)
  }

  /**
   * What the request at position i of a log must look like: every list read
   * is a well-formed query; every mutation is followed at once by a list
   * read; a created task has text; a task update is a one-key patch followed
   * by a read under All (the captured filter); emptying the trash is followed
   * by a read under Trashed (the only filter that offers it).
   */
  predicate RequestOk(log: seq<Request>, i: int)
    requires 0 <= i < |log|
  {
    match log[i]
    case GetUsers => true
    case GetTodos(params) => WellFormedQuery(params)
    case PostTodo(contents, _, _) => contents != "" && i + 1 < |log| && log[i + 1].GetTodos?
    case PutTodo(_, body) =>
      FieldFromBody(body).Some? && i + 1 < |log| && log[i + 1] == GetTodos(TodoParams(All))
    case PutTrashBox => i + 1 < |log| && log[i + 1] == GetTodos(TodoParams(Trashed))
  }

  predicate LogOk(log: seq<Request>)
  {
    forall i :: 0 <= i < |log| ==> RequestOk(log, i)
  }

  /** The invariant of every session state. */
  predicate Inv(s: State)
  {
    s.editFilter == All && LogOk(s.requests)
  }

  /** Appending to a log keeps what its requests already satisfy. */
  lemma RequestOkAppend(log: seq<Request>, more: seq<Request>, i: int)
    requires 0 <= i < |log| && RequestOk(log, i)
    ensures RequestOk(log + more, i)
  {
  }

  /** A log stays well-formed when a read, or a mutation and the read after it, is appended. */
  lemma LogOkAppend(log: seq<Request>, more: seq<Request>)
    requires LogOk(log)
    requires forall i :: |log| <= i < |log + more| ==> RequestOk(log + more, i)
    ensures LogOk(log + more)
  {
    forall i | 0 <= i < |log|
      ensures RequestOk(log + more, i)
    {
      RequestOkAppend(log, more, i);
    }
  }

  /** A log stays well-formed when a well-formed list read is appended. */
  lemma LogOkAppendRead(log: seq<Request>, params: map<string, bool>)
    requires LogOk(log) && WellFormedQuery(params)
    ensures LogOk(log + [GetTodos(params)])
  {
    var more := [GetTodos(params)];
    assert (log + more)[|log|] == GetTodos(params);
    LogOkAppend(log, more);
  }

  /** A log stays well-formed when a mutation and the list read it needs are appended. */
  lemma LogOkAppendMutation(log: seq<Request>, m: Request, params: map<string, bool>)
    requires LogOk(log) && WellFormedQuery(params) && RequestOk([m, GetTodos(params)], 0)
    ensures LogOk(log + [m, GetTodos(params)])
  {
    var more := [m, GetTodos(params)];
    assert (log + more)[|log|] == m;
    assert (log + more)[|log| + 1] == GetTodos(params);
    LogOkAppend(log, more);
  }

  /** Every interaction keeps the invariant. */
  lemma StepInv(s: State, e: Event)
    requires Inv(s)
    ensures Inv(Step(s, e))
  {
    var log := s.requests;
    match e
    case SelectFilter(f, _) =>
      TodoParamsBijective(f, map[]);
      LogOkAppendRead(log, TodoParams(f));
    case ClickSubmit(_, _) =>
      if s.newTodoText != "" {
        TodoParamsBijective(s.filterStatusCode, map[]);
        LogOkAppendMutation(log, PostOf(s), TodoParams(s.filterStatusCode));
      }
    case ClickCheckbox(row, _, _) =>
      if Displayed(s, row) && !CheckboxDisabled(row) {
        TodoParamsBijective(All, map[]);
        PatchBodyRoundTrip(CompletedToggle(row), map[]);
        LogOkAppendMutation(log, PutTodo(row.id, PatchBody(CompletedToggle(row))), TodoParams(All));
      }
    case ClickTrashIcon(row, _, _) =>
      if Displayed(s, row) {
        TodoParamsBijective(All, map[]);
        PatchBodyRoundTrip(TrashToggle(row), map[]);
        LogOkAppendMutation(log, PutTodo(row.id, PatchBody(TrashToggle(row))), TodoParams(All));
      }
    case ClickEmptyTrash(_, _) =>
      if EmptyTrashOffered(s) {
        TodoParamsBijective(Trashed, map[]);
        LogOkAppendMutation(log, PutTrashBox, TodoParams(Trashed));
      }
    case TypeText(_) =>
    case PickDeadline(_) =>
    case PickUser(_) =>
  }

  /** Any sequence of interactions keeps the invariant. */
  lemma {:induction false} RunInv(s: State, events: seq<Event>)
    requires Inv(s)
    ensures Inv(Run(s, events))
    decreases |events|
  {
    if events != [] {
      StepInv(s, events[0]);
      RunInv(Step(s, events[0]), events[1..]);
    }
  }

  /**
   * In every session, whatever the responses: every list read is a
   * well-formed query, every mutation is followed at once by a list read,
   * edits re-read under All and emptying the trash re-reads under Trashed.
   */
  lemma SessionInv(users: Option<seq<User>>, todos: Option<seq<Todo>>, events: seq<Event>)
    ensures Inv(Session(users, todos, events))
  {
    var m := Mount(Initial(), users, todos);
    TodoParamsBijective(All, map[]);
    assert RequestOk(m.requests, 1);
    assert LogOk(m.requests);
    RunInv(m, events);
  }

  /**
   * The captured filter at work: after selecting Completed, an edit re-reads
   * the list under All, so the table shows the All list while the select box
   * says Completed.
   */
  lemma EditAfterFilterRereadsAll(s: State, id: string, field: Field, put: MutationOutcome,
                                  r1: Option<seq<Todo>>, list: seq<Todo>)
    requires s.editFilter == All
    ensures var r := HandleEdit(HandleFilter(s, Completed, r1), id, field, put, Some(list));
      && r.filterStatusCode == Completed
      && r.todoList == list
      && r.requests[|r.requests| - 1] == GetTodos(TodoParams(All))
      && r.requests[|r.requests| - 1] != GetTodos(TodoParams(Completed))
  {
  }

  /**
   * The render guards in both directions: a click on a shown row's checkbox
   * sends the toggle exactly when the row is not trashed, and a click on the
   * empty-trash button empties the trash exactly under the Trashed filter.
   */
  lemma RenderGuards(s: State, row: Todo, put: MutationOutcome, response: Option<seq<Todo>>)
    requires Displayed(s, row)
    ensures Step(s, ClickCheckbox(row, put, response)) != s <==> !CheckboxDisabled(row)
    ensures !CheckboxDisabled(row) ==>
      Step(s, ClickCheckbox(row, put, response)) == HandleCompletedChange(s, row, put, response)
    ensures Step(s, ClickEmptyTrash(put, response)) != s <==> EmptyTrashOffered(s)
    ensures EmptyTrashOffered(s) ==>
      Step(s, ClickEmptyTrash(put, response)) == HandleEmptyTrashBox(s, put, response)
  {
  }

  /** A second submit right after a submit does nothing: the text is gone. */
  lemma SubmitTwice(s: State, o1: MutationOutcome, r1: Option<seq<Todo>>, o2: MutationOutcome, r2: Option<seq<Todo>>)
    ensures var once := HandleTodoSubmit(s, o1, r1);
      HandleTodoSubmit(once, o2, r2) == once
  {
  }

  /** The outcome of a mutation changes nothing: failures are only alerted. */
  lemma MutationOutcomeIgnored(s: State, o1: MutationOutcome, o2: MutationOutcome, response: Option<seq<Todo>>,
                               id: string, field: Field)
    ensures HandleTodoSubmit(s, o1, response) == HandleTodoSubmit(s, o2, response)
    ensures HandleEdit(s, id, field, o1, response) == HandleEdit(s, id, field, o2, response)
    ensures HandleEmptyTrashBox(s, o1, response) == HandleEmptyTrashBox(s, o2, response)
  {
  }
}
