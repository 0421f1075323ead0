/**
 * The requests the board sends to its backend, as abstract values, and the
 * query parameters of the task-list read (src/App.tsx:84-105, 137-145,
 * 163-167, 188).
 */
module Http {
  import opened Wrappers
  import opened Filter
  import opened TodoModel

  /**
   * The deadline_at of a new task: `new Date(text)` of the draft's deadline
   * text. It is kept opaque; for the empty text it stands for an invalid date.
   */
  datatype DateArg = DateFrom(text: string)

  /** One request, in the order the board issues them. */
  datatype Request =
    | GetUsers                                                   // GET /user
    | GetTodos(params: map<string, bool>)                        // GET /todo?...
    | PostTodo(contents: string, deadlineAt: DateArg, userId: string)  // POST /todo
    | PutTodo(id: string, body: map<string, JsonValue>)         // PUT /todo/{id}
    | PutTrashBox                                                // PUT /todo/trash_box

  /** What became of a create or update request; the board only alerts on failure. */
  datatype MutationOutcome = Succeeded | Failed(error: string)

  /**
   * The query parameters of the task-list read for a filter: is_trashed
   * always, is_completed only for Completed and Uncompleted.
   */
  function TodoParams(f: FilterStatusCode): (params: map<string, bool>)
    ensures "is_trashed" in params && params["is_trashed"] == (f == Trashed)
    ensures "is_completed" in params <==> f == Completed || f == Uncompleted
    ensures "is_completed" in params ==> params["is_completed"] == (f == Completed)
    ensures params.Keys <= {"is_trashed", "is_completed"}
  {
    var params := map["is_trashed" := f == Trashed];
    if f in [Completed, Uncompleted] then params["is_completed" := f == Completed]
    else params
  }

  /**
   * A task-list query the backend can be sent: it always says whether
   * trashed tasks are wanted, may in addition say whether completed ones
   * are, and never asks for completion among trashed tasks.
   */
  predicate WellFormedQuery(params: map<string, bool>)
  {
    "is_trashed" in params
    && params.Keys <= {"is_trashed", "is_completed"}
    && ("is_completed" in params ==> !params["is_trashed"])
  }

  /** The filter a query was built from, read back from its parameters. */
  function FilterOfParams(params: map<string, bool>): (r: Option<FilterStatusCode>)
    ensures r.Some? ==> WellFormedQuery(params)
  {
    if !WellFormedQuery(params) then None
    else if params["is_trashed"] then Some(Trashed)
    else if "is_completed" !in params then Some(All)
    else if params["is_completed"] then Some(Completed)
    else Some(Uncompleted)
  }

  /**
   * The four filters give exactly the well-formed queries, each from one
   * filter only: the filter-to-query mapping loses nothing and invents nothing.
   */
  lemma TodoParamsBijective(f: FilterStatusCode, params: map<string, bool>)
    ensures WellFormedQuery(TodoParams(f))
    ensures FilterOfParams(TodoParams(f)) == Some(f)
    ensures WellFormedQuery(params) ==> FilterOfParams(params).Some? && TodoParams(FilterOfParams(params).value) == params
  {
  }

  /** Two filters that issue the same query are the same filter. */
  lemma TodoParamsInjective(f: FilterStatusCode, g: FilterStatusCode)
    ensures TodoParams(f) == TodoParams(g) ==> f == g
  {
  }
}
