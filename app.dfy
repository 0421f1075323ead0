/**
 * The App component as an object whose handlers update its state fields in
 * place and append to its request log (src/App.tsx:52-193). Each handler is
 * specified by the transition of the same name in Controller.
 */
module AppComponent {
  import opened Wrappers
  import opened Filter
  import opened TodoModel
  import opened Http
  import Controller

  class App {
    var filterStatusCode: FilterStatusCode
    var newTodoText: string
    var newTodoDeadline: string
    var newTodoUser: string
    var userList: seq<User>
    var todoList: seq<Todo>
    /** The filter the memoised edit handler sees: the one of the first render. */
    const editFilter: FilterStatusCode
    /** The requests sent so far, oldest first. */
    var requests: seq<Request>

    /** The component's state as a value. */
    function Snapshot(): Controller.State
      reads this
    {
      Controller.State(filterStatusCode, newTodoText, newTodoDeadline, newTodoUser,
                       userList, todoList, editFilter, requests)
    }

    /** The first render: every useState default, nothing sent yet. */
    constructor ()
      ensures Snapshot() == Controller.Initial()
    {
      filterStatusCode := All;
      newTodoText := "";
      newTodoDeadline := "";
      newTodoUser := "";
      userList := [];
      todoList := [];
      editFilter := All;
      requests := [];
    }

    method FetchUsers(response: Option<seq<User>>)
      modifies this
      ensures Snapshot() == Controller.FetchUsers(old(Snapshot()), response)
    {
      requests := requests + [GetUsers];
      if response.Some? {
        userList := response.value;
      }
    }

    method FetchTodos(selectFilter: FilterStatusCode, response: Option<seq<Todo>>)
      modifies this
      ensures Snapshot() == Controller.FetchTodos(old(Snapshot()), selectFilter, response)
    {
      var params := map["is_trashed" := selectFilter == Trashed];
      if selectFilter in [Completed, Uncompleted] {
        params := params["is_completed" := selectFilter == Completed];
      }
      requests := requests + [GetTodos(params)];
      if response.Some? {
        todoList := response.value;
      }
    }

    /** The mount effect. */
    method Mount(users: Option<seq<User>>, todos: Option<seq<Todo>>)
      modifies this
      ensures Snapshot() == Controller.Mount(old(Snapshot()), users, todos)
    {
      FetchUsers(users);
      FetchTodos(All, todos);
    }

    method HandleFilter(selectFilter: FilterStatusCode, response: Option<seq<Todo>>)
      modifies this
      ensures Snapshot() == Controller.HandleFilter(old(Snapshot()), selectFilter, response)
    {
      filterStatusCode := selectFilter;
      FetchTodos(selectFilter, response);
    }

    method HandleTodoTextChange(value: string)
      modifies this
      ensures Snapshot() == Controller.HandleTodoTextChange(old(Snapshot()), value)
    {
      newTodoText := value;
    }

    method HandleTodoDeadlineChange(value: Option<string>)
      modifies this
      ensures Snapshot() == Controller.HandleTodoDeadlineChange(old(Snapshot()), value)
    {
      if value.None? {
        return;
      }
      newTodoDeadline := value.value;
    }

    method HandleTodoUserChange(userId: string)
      modifies this
      ensures Snapshot() == Controller.HandleTodoUserChange(old(Snapshot()), userId)
    {
      newTodoUser := userId;
    }

    /** The outcome of the POST only decides whether an alert is shown. */
    method HandleTodoSubmit(post: MutationOutcome, response: Option<seq<Todo>>)
      modifies this
      ensures Snapshot() == Controller.HandleTodoSubmit(old(Snapshot()), post, response)
    {
      if newTodoText == "" {
        return;
      }
      requests := requests + [PostTodo(newTodoText, DateFrom(newTodoDeadline), newTodoUser)];
      FetchTodos(filterStatusCode, response);
      newTodoText := "";
    }

    /** Re-reads under editFilter, the filter captured when the handler was memoised. */
    method HandleEdit(id: string, field: Field, put: MutationOutcome, response: Option<seq<Todo>>)
      modifies this
      ensures Snapshot() == Controller.HandleEdit(old(Snapshot()), id, field, put, response)
    {
      requests := requests + [PutTodo(id, map[KeyOf(field) := ValueOf(field)])];
      FetchTodos(editFilter, response);
    }

    method HandleDetailClick(row: Todo, put: MutationOutcome, response: Option<seq<Todo>>)
      modifies this
      ensures Snapshot() == Controller.HandleDetailClick(old(Snapshot()), row, put, response)
    {
      HandleEdit(row.id, IsTrashed(!row.isTrashed), put, response);
    }

    /** The onChange of a row's completion checkbox. */
    method HandleCompletedChange(row: Todo, put: MutationOutcome, response: Option<seq<Todo>>)
      modifies this
      ensures Snapshot() == Controller.HandleCompletedChange(old(Snapshot()), row, put, response)
    {
      HandleEdit(row.id, IsCompleted(!row.isCompleted), put, response);
    }

    method HandleEmptyTrashBox(put: MutationOutcome, response: Option<seq<Todo>>)
      modifies this
      ensures Snapshot() == Controller.HandleEmptyTrashBox(old(Snapshot()), put, response)
    {
      requests := requests + [PutTrashBox];
      FetchTodos(filterStatusCode, response);
    }

    /** Whether the render shows the empty-trash button. */
    function EmptyTrashOffered(): (offered: bool)
      reads this
      ensures offered == Controller.EmptyTrashOffered(Snapshot())
    {
      filterStatusCode == Trashed
    }

    /**
     * A user interaction with the rendered board; the invariant of
     * Controller.Inv is kept by every one of them.
     */
    method Dispatch(e: Controller.Event)
      modifies this
      ensures Snapshot() == Controller.Step(old(Snapshot()), e)
      ensures Controller.Inv(old(Snapshot())) ==> Controller.Inv(Snapshot())
    {
      ghost var before := Snapshot();
      match e {
      case SelectFilter(f, resp) => HandleFilter(f, resp);
      case TypeText(t) => HandleTodoTextChange(t);
      case PickDeadline(d) => HandleTodoDeadlineChange(d);
      case PickUser(u) => HandleTodoUserChange(u);
      case ClickSubmit(o, resp) => HandleTodoSubmit(o, resp);
      case ClickCheckbox(row, o, resp) =>
        if row in todoList && !row.isTrashed {
          HandleCompletedChange(row, o, resp);
        }
      case ClickTrashIcon(row, o, resp) =>
        if row in todoList {
          HandleDetailClick(row, o, resp);
        }
      case ClickEmptyTrash(o, resp) =>
        if EmptyTrashOffered() {
          HandleEmptyTrashBox(o, resp);
        }
      }
      if Controller.Inv(before) {
        Controller.StepInv(before, e);
      }
    }
  }

  /**
   * After the mount effect, selecting Trashed reads the trashed tasks only
   * and offers the empty-trash button.
   */
  method SelectTrashedScenario() returns (log: seq<Request>, offered: bool)
    ensures log == [GetUsers, GetTodos(map["is_trashed" := false]), GetTodos(map["is_trashed" := true])]
    ensures offered
  {
    var app := new App();
    app.Mount(None, None);
    app.HandleFilter(Trashed, None);
    log := app.requests;
    offered := app.EmptyTrashOffered();
  }

  /**
   * After the mount effect, submitting "buy milk" with no deadline and no
   * assignee posts the empty deadline text and the empty user id, then
   * re-reads under All, even though the POST failed; the text is cleared.
   */
  method SubmitBuyMilkScenario() returns (log: seq<Request>, text: string)
    ensures log == [GetUsers, GetTodos(map["is_trashed" := false]),
                    PostTodo("buy milk", DateFrom(""), ""), GetTodos(map["is_trashed" := false])]
    ensures text == ""
  {
    var app := new App();
    app.Mount(None, None);
    app.HandleTodoTextChange("buy milk");
    app.HandleTodoSubmit(Failed("Network Error"), None);
    log := app.requests;
    text := app.newTodoText;
  }

  /**
   * After the mount effect has shown task "7", checking it puts
   * {is_completed: true} to it, then re-reads the list.
   */
  method EditSevenScenario() returns (log: seq<Request>)
    ensures log == [GetUsers, GetTodos(map["is_trashed" := false]),
                    PutTodo("7", map["is_completed" := JBool(true)]), GetTodos(map["is_trashed" := false])]
  {
    var app := new App();
    var seven := Todo("7", "", "", "", false, false);
    app.Mount(None, Some([seven]));
    app.Dispatch(Controller.ClickCheckbox(seven, Succeeded, None));
    log := app.requests;
  }
}
