# Todo board controller

A model of the `App` component of a single-page todo-list frontend. The component holds six
state fields: the active filter (All, Uncompleted, Completed, Trashed), the draft of a new task
(text, deadline text, assignee id), the user list and the task list. Its handlers change these
fields and send requests to a backend: read the users, read the tasks under a filter, create a
task, put a one-key patch to a task, and empty the trash box. After every mutation the
handler re-reads the task list.

The project has two layers:

- `Controller` (controller.dfy) states every handler as a function from the old state to the
  new one. The state includes a log of the requests sent so far (`Http.Request`). A response
  the handler waits for is an argument: `Some(list)` for a successful read, `None` for a
  failed one. A mutation's outcome (`MutationOutcome`) is also an argument, and no result
  depends on it, because the source only shows an alert on failure.
- `AppComponent.App` (app.dfy) is a class whose fields are the component's state fields plus
  the request log. Its methods update those fields in place, as the source's setters do. Each
  method is proved to produce exactly the state that the same-named `Controller` function gives.

Other modules:

- `Filter`: the filter codes '1' to '4' and the list of filter options.
- `TodoModel`: the Todo and User records, and `Field`, the key and value pair the edit handler
  is generic over, together with its JSON patch body.
- `Http`: the requests, and the query parameters of the task-list read.

Four behaviours of the code that are easy to misread:

- **Edits re-read under the first-render filter.** `handleEdit` is memoised with an empty
  dependency list (src/App.tsx:157-175). Its re-read therefore uses the filter captured on the
  first render, which is All, and not the active filter. The model keeps this filter in
  `editFilter`. `Controller.EditAfterFilterRereadsAll` shows the consequence: under the
  Completed filter, the table ends up showing the All list. Submit and empty-trash use the
  active filter.
- **Empty deadline and assignee.** With no deadline chosen, the draft deadline is the empty
  string (src/App.tsx:69), and the POST carries `DateFrom("")`, which stands for
  `new Date('')` (src/App.tsx:139). With no assignee chosen, `user_id` is the empty string,
  not an absent field (src/App.tsx:70, 140).
- **Text is cleared even when the POST fails.** The `.catch` only alerts
  (src/App.tsx:146-148), so the re-read and the clearing of the text still happen. A failed
  PUT also still triggers a re-read (src/App.tsx:168-172, 188-192).
- **Failed reads are not caught.** A failed read never reaches its setter
  (src/App.tsx:85-86, 103-104), so the list it would have replaced stays as it was.

Three pieces of UI behaviour are modelled as events in `Controller.Step`:

- A trashed row's checkbox is disabled, so clicking it does nothing (src/App.tsx:225).
- The empty-trash button is rendered only under the Trashed filter, so the click does
  nothing under any other filter (src/App.tsx:335).
- The grid shows only the rows of the task list (src/App.tsx:342), so a click on any other
  row does nothing.

`Controller.Inv` is the session invariant. It says:

- the edit filter is All;
- every list read carries a well-formed query;
- every mutation is immediately followed by a list read;
- every edit is followed by a read under All;
- every empty-trash request is followed by a read under Trashed.

## Model

| member | source | states |
|---|---|---|
| Filter.Code | src/App.tsx:60-65 | each filter's code is a single digit '1' to '4' |
| Filter.FromCode | src/App.tsx:323-325 | a selected option value reads back as a filter exactly when it is one of the four codes |
| Filter.CodeRoundTrip | src/App.tsx:60-65 | reading back a filter's code gives that filter, and no other string reads back as it |
| Filter.Name | src/App.tsx:54-57 | the label of each filter in the select box: 全て, 未完了, 完了済み, ゴミ箱 |
| Filter.FilterStatusList | src/App.tsx:53-58 | the option list has four entries |
| Filter.FilterStatusListComplete | src/App.tsx:53-58 | every filter is offered under its code and label; codes in the list are distinct and each reads back as a filter |
| TodoModel.PatchBody | src/App.tsx:163 | the PUT body has exactly one key, the field's key, holding the field's value |
| TodoModel.FieldFromBody | src/App.tsx:157-163 | a body is read as a field only if it has one key holding that field's value |
| TodoModel.PatchBodyRoundTrip | src/App.tsx:157-163 | a patch body reads back as the field it was built from, and any body that reads back as a field is that field's patch body |
| TodoModel.TrashToggle | src/App.tsx:181 | the trash icon sends the trashed flag negated |
| TodoModel.CompletedToggle | src/App.tsx:226-227 | the checkbox sends the completed flag negated |
| Http.TodoParams | src/App.tsx:90-101 | is_trashed is always present and equals (filter == Trashed); is_completed is present exactly for Completed and Uncompleted and then equals (filter == Completed); no other key |
| Http.FilterOfParams | src/App.tsx:91-101 | only a well-formed query is read back as a filter |
| Http.TodoParamsBijective | src/App.tsx:90-101 | every filter's query is well-formed and reads back as that filter; every well-formed query is the query of exactly that filter |
| Http.TodoParamsInjective | src/App.tsx:90-101 | distinct filters send distinct queries |
| Controller.Initial | src/App.tsx:67-75 | the first render has filter All, an empty draft, empty lists, no requests sent, and All as the captured edit filter |
| Controller.FetchUsers | src/App.tsx:84-87 | sends GET /user; a successful read replaces the user list; nothing else changes |
| Controller.FetchTodos | src/App.tsx:90-105 | sends exactly one task read with the filter's query; success replaces the task list wholesale, failure leaves it; nothing else changes |
| Controller.Mount | src/App.tsx:78-81 | the mount effect sends GET /user, then a task read under All, and fills both lists on success |
| Controller.HandleFilter | src/App.tsx:108-112 | sets the filter and sends exactly one task read built from it; only the filter, the task list and the log change |
| Controller.HandleTodoTextChange | src/App.tsx:115-119 | any text, including the empty one, becomes the draft text; nothing else changes |
| Controller.HandleTodoDeadlineChange | src/App.tsx:122-125 | a null date changes nothing; a date's text becomes the draft deadline and nothing else changes |
| Controller.HandleTodoUserChange | src/App.tsx:128-130 | any user id, including the empty one, becomes the draft assignee; nothing else changes |
| Controller.PostOf | src/App.tsx:137-141 | the POST params of a draft: its text as contents, `new Date` of its deadline text as deadline_at, its user id (possibly empty) as user_id |
| Controller.HandleTodoSubmit | src/App.tsx:133-154 | with empty text nothing at all changes; otherwise it sends exactly one POST of (text, deadline, user), then one task read under the active filter, whatever the POST outcome, and clears the text only |
| Controller.HandleEdit | src/App.tsx:157-175 | sends one PUT of the one-key patch to the task, then one task read under the captured filter, not the active one; nothing else but the list changes |
| Controller.HandleDetailClick | src/App.tsx:178-184 | the trash icon PUTs {is_trashed: negated flag} to the row's task, then re-reads under the captured filter |
| Controller.HandleCompletedChange | src/App.tsx:221-229 | the checkbox PUTs {is_completed: negated flag} to the row's task, then re-reads under the captured filter |
| Controller.HandleEmptyTrashBox | src/App.tsx:187-193 | sends one PUT to the trash box, then one task read under the active filter, whatever the PUT outcome |
| Controller.CheckboxDisabled | src/App.tsx:225 | a row's checkbox is disabled exactly when the row is trashed |
| Controller.EmptyTrashOffered | src/App.tsx:335 | the empty-trash button is rendered exactly under the Trashed filter |
| Controller.Step | src/App.tsx:221-342 | a click on a trashed row's checkbox, on a row the grid does not show, or on the empty-trash button under a filter other than Trashed, changes nothing; no interaction changes the captured filter or removes a request from the log |
| Controller.RenderGuards | src/App.tsx:222-336 | on a shown row, a checkbox click sends the toggle exactly when the row is not trashed; an empty-trash click empties the trash exactly under the Trashed filter, and then each reaches its handler |
| Controller.RunExtendsLog | src/App.tsx:108-193 | interactions only append to the request log |
| Controller.Session | src/App.tsx:67-81 | a session is the first render, the mount effect, then the interactions; its log always starts with GET /user and the read under All |
| Controller.StepInv | src/App.tsx:108-193 | every user interaction keeps the session invariant |
| Controller.RunInv | src/App.tsx:108-193 | any sequence of interactions keeps the session invariant |
| Controller.SessionInv | src/App.tsx:78-193 | in every session, from the first render through the mount effect and any interactions, under any responses: every mutation is followed at once by a list read, edits re-read under All, emptying the trash re-reads under Trashed, and every read is well-formed |
| Controller.EditAfterFilterRereadsAll | src/App.tsx:157-175 | after selecting Completed, an edit re-reads under All, so the table shows the All list while the filter is Completed |
| Controller.SubmitTwice | src/App.tsx:133-154 | a second submit right after a submit changes nothing |
| Controller.MutationOutcomeIgnored | src/App.tsx:144-192 | the outcome of a POST or PUT does not change the resulting state or log |
| AppComponent.App.constructor | src/App.tsx:67-75 | the component starts in the initial state |
| AppComponent.App.FetchUsers | src/App.tsx:84-87 | updates the fields as Controller.FetchUsers does |
| AppComponent.App.FetchTodos | src/App.tsx:90-105 | builds the query dictionary step by step and updates the fields as Controller.FetchTodos does |
| AppComponent.App.Mount | src/App.tsx:78-81 | updates the fields as Controller.Mount does |
| AppComponent.App.HandleFilter | src/App.tsx:108-112 | updates the fields as Controller.HandleFilter does |
| AppComponent.App.HandleTodoTextChange | src/App.tsx:115-119 | updates the fields as Controller.HandleTodoTextChange does |
| AppComponent.App.HandleTodoDeadlineChange | src/App.tsx:122-125 | updates the fields as Controller.HandleTodoDeadlineChange does |
| AppComponent.App.HandleTodoUserChange | src/App.tsx:128-130 | updates the fields as Controller.HandleTodoUserChange does |
| AppComponent.App.HandleTodoSubmit | src/App.tsx:133-154 | updates the fields as Controller.HandleTodoSubmit does |
| AppComponent.App.HandleEdit | src/App.tsx:157-175 | updates the fields as Controller.HandleEdit does, re-reading under the captured filter |
| AppComponent.App.HandleDetailClick | src/App.tsx:178-184 | updates the fields as Controller.HandleDetailClick does |
| AppComponent.App.HandleCompletedChange | src/App.tsx:221-229 | updates the fields as Controller.HandleCompletedChange does |
| AppComponent.App.HandleEmptyTrashBox | src/App.tsx:187-193 | updates the fields as Controller.HandleEmptyTrashBox does |
| AppComponent.App.EmptyTrashOffered | src/App.tsx:335-339 | the empty-trash button is shown exactly under the Trashed filter |
| AppComponent.App.Dispatch | src/App.tsx:221-339 | applies one interaction as Controller.Step does and keeps the session invariant |
| AppComponent.SelectTrashedScenario | src/App.tsx:78-112 | after the mount reads, selecting Trashed sends a read with is_trashed=true and no is_completed, and offers the empty-trash button |
| AppComponent.SubmitBuyMilkScenario | src/App.tsx:78-154 | after the mount reads, submitting "buy milk" with no deadline or assignee, even when the POST fails, POSTs the empty deadline text and user id, re-reads under All and clears the text |
| AppComponent.EditSevenScenario | src/App.tsx:78-229 | after the mount has shown task "7", checking it PUTs {is_completed: true} to it, then re-reads under All |

## Left out

- Rendering is left out: the JSX, the data grid, the select boxes, the text field, the date
  picker with its locale, the icons, the Header component and the pagination settings. It is
  UI composition.
- The axios transport, the base URL and the JSON headers are left out. Requests are abstract values.
- `Date` is left out: its construction, `toString()` and JSON serialisation are library
  behaviour. The deadline setter receives the date's text as a string, and the POST carries
  `DateFrom(text)` for `new Date(text)`.
- `alert` and `event.stopPropagation()` are left out. They are browser side effects. The
  mutation outcome is accepted and then ignored.
- Asynchrony is left out. Each handler is one atomic step, so overlapping requests and
  out-of-order responses are not modelled. In the source, the submit handler clears the text
  before its re-read resolves. The model applies the read and the clearing in one step.
- React's hook mechanics are left out. The value that the memoised edit handler captured is
  the field `editFilter`.
- Controller.Step: its contract states only the render guards, that the captured filter is
  kept and that the log only grows. Which handler each interaction reaches is stated by
  Controller.RenderGuards for the two guarded clicks, and otherwise by the body.
