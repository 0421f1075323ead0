/**
 * The records the board shows (src/App.tsx:38-50) and the single-key patch
 * body that the edit handler sends for one of a Todo's keys (src/App.tsx:157-163).
 */
module TodoModel {
  import opened Wrappers

  /** A row of the task table, as the backend returns it. */
  datatype Todo = Todo(
    id: string,
    userName: string,
    contents: string,
    deadlineStr: string,
    isCompleted: bool,
    isTrashed: bool)

  /** An entry of the assignee list. */
  datatype User = User(id: string, fullName: string)

  /**
   * A key of Todo paired with a value of that key's type: the pair
   * `K extends keyof Todo, V extends Todo[K]` the edit handler is generic over.
   */
  datatype Field =
    | Id(id: string)
    | UserName(userName: string)
    | Contents(contents: string)
    | DeadlineStr(deadlineStr: string)
    | IsCompleted(isCompleted: bool)
    | IsTrashed(isTrashed: bool)

  /** A JSON value of the kinds a Todo's keys hold. */
  datatype JsonValue = JString(s: string) | JBool(b: bool)

  /** The JSON key under which a field travels. */
  function KeyOf(f: Field): string
  {
    match f
    case Id(_) => "id"
    case UserName(_) => "user_name"
    case Contents(_) => "contents"
    case DeadlineStr(_) => "deadline_str"
    case IsCompleted(_) => "is_completed"
    case IsTrashed(_) => "is_trashed"
  }

  /** The JSON value a field carries. */
  function ValueOf(f: Field): JsonValue
  {
    match f
    case Id(v) => JString(v)
    case UserName(v) => JString(v)
    case Contents(v) => JString(v)
    case DeadlineStr(v) => JString(v)
    case IsCompleted(v) => JBool(v)
    case IsTrashed(v) => JBool(v)
  }

  /** The body `{ [key]: value }` of the edit handler's PUT. */
  function PatchBody(f: Field): (body: map<string, JsonValue>)
    ensures |body| == 1
    ensures KeyOf(f) in body && body[KeyOf(f)] == ValueOf(f)
  {
    map[KeyOf(f) := ValueOf(f)]
  }

  /**
   * How a receiver reads a patch body back: exactly one key, one of Todo's
   * keys, with a value of that key's type.
   */
  function FieldFromBody(body: map<string, JsonValue>): (r: Option<Field>)
    ensures r.Some? ==> |body| == 1 && KeyOf(r.value) in body && body[KeyOf(r.value)] == ValueOf(r.value)
  {
    if |body| != 1 then None
    else if "id" in body && body["id"].JString? then Some(Id(body["id"].s))
    else if "user_name" in body && body["user_name"].JString? then Some(UserName(body["user_name"].s))
    else if "contents" in body && body["contents"].JString? then Some(Contents(body["contents"].s))
    else if "deadline_str" in body && body["deadline_str"].JString? then Some(DeadlineStr(body["deadline_str"].s))
    else if "is_completed" in body && body["is_completed"].JBool? then Some(IsCompleted(body["is_completed"].b))
    else if "is_trashed" in body && body["is_trashed"].JBool? then Some(IsTrashed(body["is_trashed"].b))
    else None
  }

  /** A map with one entry is the singleton map of that entry. */
  lemma SingletonMap<K, V>(m: map<K, V>, k: K)
    requires |m| == 1 && k in m
    ensures m == map[k := m[k]]
  {
    var rest := m.Keys - {k};
    assert m.Keys == rest + {k};
    assert |rest| == 0;
    assert rest == {};
  }

  /**
   * A patch body names exactly the field it was built from, and every body
   * that reads back as a field is that field's patch body: bodies and fields
   * are in one-to-one correspondence.
   */
  lemma PatchBodyRoundTrip(f: Field, body: map<string, JsonValue>)
    ensures FieldFromBody(PatchBody(f)) == Some(f)
    ensures FieldFromBody(body) == Some(f) ==> body == PatchBody(f)
  {
    if FieldFromBody(body) == Some(f) {
      SingletonMap(body, KeyOf(f));
    }
  }

  /** The toggle that the trash icon of a row sends. */
  function TrashToggle(row: Todo): (f: Field)
    ensures f.IsTrashed? && f.isTrashed != row.isTrashed
  {
    IsTrashed(!row.isTrashed)
  }

  /** The toggle that the completion checkbox of a row sends. */
  function CompletedToggle(row: Todo): (f: Field)
    ensures f.IsCompleted? && f.isCompleted != row.isCompleted
  {
    IsCompleted(!row.isCompleted)
  }
}
