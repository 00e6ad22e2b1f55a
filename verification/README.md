# Task manager micro-frontend — a Dafny model of its decision logic

The repository is a React widget that lists, filters, creates, edits,
deletes and completes "tasks" against a REST backend. Its logic is small
and sits inside the components. This project pulls that logic out as pure
functions over immutable records and proves what the components promise.

- `wrappers.dfy`: `Option`, the override used by object spread, and string truthiness.
- `types.dfy`: the records of `src/types/task.types.ts`. `assignedTo: string | User` becomes the variant `ById(id) | Embedded(User)`. Optional fields become `Option`. Every date is an integer millisecond timestamp.
- `task_service.dfy`: the REST client. It covers the bearer header, the ordered query parameters of the list call, the query string and its parser (with a round trip), the list URL, and the six calls. Each call normalises a transport failure into a `success: false` reply.
- `filter_panel.dfy`: the filter panel. It covers the Apply builder, Reset, the eight sort keys, and the expand toggle.
- `task_item.dfy`: the due state of a row. Days remaining is a ceiling division on milliseconds. The module also gives the colour style, the markers and the tooltip.
- `task_list.dfy`: the table rows. It covers the assignee label, status tags, role-gated actions and the completion request. The delete and completion handlers ask for a refresh only on success.
- `task_form.dfy`: the modal form. It covers edit pre-fill, user normalisation, the field rules, the payload, and the create-or-update dispatch.
- `task_management.dfy`: the controller. Its state is the task lists, the filters, the form slot, and logs of requests and notices. It also has the filter merge, the tab mapping, the tab partition, role gating, and whole sessions as event sequences.

The transport's reply (`Delivered(body)` or `TransportError`), the stored
token and the clock reading `now` are parameters. A fetch is one step: the
request is built from the current filters and the reply is applied at once.

Some behaviours of the code are easy to miss; the model keeps them:

- The Reset button emits `{}`. The controller merges it into the current filters, so Reset keeps every constraint applied before (`TaskManagement.ResetKeepsConstraints`).
- Without a stored token the Authorization header is still sent, with the empty string as its value. An empty stored token counts as no token.
- An assignee id equal to `""` is falsy and shows as "Unassigned", just like a missing assignee.
- `Task.assignedTo` is a required field of the record type, and the model keeps it required. The "Assigned To" cell guards against a missing value, so `TaskList.AssigneeLabel` also accepts `None` for a reply that lacks the field. The form's pre-fill has no such guard and would fail on a missing assignee; that case is not modelled.
- Each call of `calculateDaysRemaining` reads the clock. One render reads it once for the style, once for the "(Overdue)" test and twice for the "(Due soon)" test. `TaskItem.Readings` carries the four readings, and `TaskItem.StyleAndMarkerCanDisagree` shows a render that straddles a day boundary.
- After a failed form validation, the submit handler's catch branch shows "Failed to create task" (or "update"). It shows this in addition to the inline field errors.

## Model

| member | source | states |
|---|---|---|
| TaskService.Authorization | src/services/taskService.ts:10-16 | The header is `Bearer <token>` exactly when a non-empty token is stored, else the empty string; the token is recoverable from the header |
| TaskService.QueryParams | src/services/taskService.ts:27-44 | At most four parameters, in the fixed order isCompleted, isActive, assignedTo, sort, each key at most once; the list is empty exactly when neither flag is defined and neither string is non-empty |
| TaskService.QueryParamsContents | src/services/taskService.ts:30-44 | isCompleted/isActive are sent exactly when defined, `false` as "false"; assignedTo/sort exactly when non-empty; the list is empty exactly when none of these holds |
| TaskService.QueryIgnoresDatesAndPaging | src/services/taskService.ts:27-49 | startDate, endDate, page and limit never influence the query |
| TaskService.QueryString | src/services/taskService.ts:46-47 | The query string is empty exactly when there are no parameters |
| TaskService.QueryStringRoundTrip | src/services/taskService.ts:28-47 | Splitting the emitted string at `&` and the first `=` gives back every pair, in order |
| TaskService.TasksPath | src/services/taskService.ts:25-48 | The path is `/tasks` with no filter or no parameter, else `/tasks?` followed by the query string |
| TaskService.TasksPathDecodes | src/services/taskService.ts:25-48 | The query part of the list path decodes to exactly the filter's parameters |
| TaskService.Settle | src/services/taskService.ts:51-57 | A delivered reply is returned unchanged; a transport failure yields the call's fixed failure reply |
| TaskService.GetTasks | src/services/taskService.ts:22-58 | GET of the list path with the bearer header; a delivered reply is returned as is, a transport failure becomes `{success:false, count:0, data:[]}` |
| TaskService.GetTask | src/services/taskService.ts:60-69 | GET `/tasks/<id>`; a transport failure becomes `success:false` with the empty task |
| TaskService.CreateTask | src/services/taskService.ts:71-80 | POST `/tasks` with the payload; a transport failure becomes `success:false` |
| TaskService.UpdateTask | src/services/taskService.ts:82-91 | PUT `/tasks/<id>` with the payload; a transport failure becomes `success:false` |
| TaskService.DeleteTask | src/services/taskService.ts:93-102 | DELETE `/tasks/<id>`; a transport failure becomes `{success:false, message:'Failed to delete task'}` |
| TaskService.UpdateTaskCompletion | src/services/taskService.ts:104-113 | PUT `/tasks/<id>/completion` with the completion body; a transport failure becomes `success:false` |
| FilterPanel.BuildFilter | src/components/TaskFilter.tsx:17-34 | isActive is copied when defined; start and end dates are both set from range elements 0 and 1 exactly when the range has length 2; sort only when non-empty; isCompleted, assignedTo, page and limit are never set |
| FilterPanel.Reset | src/components/TaskFilter.tsx:36-39 | The form returns to its initial values and the empty filter is emitted |
| FilterPanel.ParseSortKey | src/components/TaskFilter.tsx:84-91 | A recognised key maps to a field and direction whose key text is the key itself |
| FilterPanel.SortKeysAreAllSorts | src/components/TaskFilter.tsx:84-91 | The eight options are distinct and are exactly the ascending and descending keys of name, startDate, endDate and createdAt |
| FilterPanel.SortRoundTrip | src/components/TaskFilter.tsx:84-91 | Each field and direction has its key among the options, and that key parses back to it |
| FilterPanel.Toggle | src/components/TaskFilter.tsx:41-43 | Each toggle flips the expanded flag |
| FilterPanel.Controls | src/components/TaskFilter.tsx:45-111 | Collapsed, the panel shows only "Show Filters"; expanded, it shows the form with Apply and Hide but no "Show Filters" |
| FilterPanel.ToggleParity | src/components/TaskFilter.tsx:13-43 | From the initial collapsed panel, n toggles leave it expanded exactly when n is odd |
| TaskItem.CeilDiv | src/components/TaskItem.tsx:17 | The result is the ceiling of a / b: the least r with a <= r * b |
| TaskItem.DaysRemaining | src/components/TaskItem.tsx:13-18 | Days remaining is the ceiling of (end date - now) / 86 400 000 |
| TaskItem.TextStyle | src/components/TaskItem.tsx:22-36 | Completed style exactly when the task is completed; otherwise red exactly when now is at least a full day past the end date, orange exactly when the end date is less than a day past and at most two days ahead, and the default beyond that |
| TaskItem.Markers | src/components/TaskItem.tsx:57-67 | "(Overdue)" exactly when the task is not completed and its own clock reading is a full day past the end date; "(Due soon)" exactly when not completed and its two readings put the end date less than a day past and at most two days ahead; at most one marker on a clock that does not run backwards |
| TaskItem.CompletedOverridesDates | src/components/TaskItem.tsx:22-67 | A completed task gets the completed style whatever its dates and the clock, and shows no marker |
| TaskItem.MarkerAgreesWithStyle | src/components/TaskItem.tsx:22-67 | When all four clock readings give the same day count, at most one marker shows and it matches the colour; completed and default styles have none |
| TaskItem.StyleAndMarkerCanDisagree | src/components/TaskItem.tsx:13-67 | A render whose clock passes the full-day-late moment between the style and the marker shows an orange name with "(Overdue)" |
| TaskItem.TooltipOf | src/components/TaskItem.tsx:40-50 | The completion line appears exactly when a completion date is present; the description falls back to 'No description provided' when missing or empty |
| TaskList.AssigneeLabel | src/components/TaskList.tsx:84-95 | 'Unassigned' when there is no assignee or the id is empty, the raw id for an id, else first name, a space, last name |
| TaskList.EmbeddedNeverUnassigned | src/components/TaskList.tsx:84-95 | A populated user's label never reads 'Unassigned' |
| TaskList.StatusTags | src/components/TaskList.tsx:71-76 | ACTIVE exactly when active (else INACTIVE); COMPLETED exactly when completed (else PENDING) |
| TaskList.CompletionRequestFor | src/components/TaskList.tsx:42-45 | isCompleted equals the new switch state; the completion date is present exactly when completing, and is then the current time |
| TaskList.RowActions | src/components/TaskList.tsx:106-135 | Admin rows offer edit of the row's task and delete of its id; other rows offer only a switch showing the task's completed flag |
| TaskList.RowActionsGated | src/components/TaskList.tsx:108-134 | A row has a switch exactly when the role is not admin, and every control is bound to its own row |
| TaskList.EditClick | src/components/TaskList.tsx:113 | The edit callback, when given, receives the row's own task |
| TaskList.HandleDelete | src/components/TaskList.tsx:25-38 | Deletes the row's id; asks for a refresh exactly when the reply reports success; otherwise shows the server message or 'Failed to delete task' |
| TaskList.HandleCompletionChange | src/components/TaskList.tsx:40-57 | Sends the completion request; asks for a refresh exactly when the reply reports success; otherwise shows an error |
| TaskList.SwitchFlipsCompletion | src/components/TaskList.tsx:40-45 | Moving a user row's switch sends a PUT to the row's completion path with the opposite of the row's completed flag, carrying the current time exactly when the row was pending |
| TaskList.CompletionLineMeansCompleted | src/components/TaskItem.tsx:46-48 | When a completion date is present only on completed tasks, a tooltip with a completion line belongs to a row tagged COMPLETED and styled completed |
| TaskList.RefreshOnlyOnSuccess | src/components/TaskList.tsx:25-57 | A transport failure never refreshes and only notifies; a delivered reply refreshes exactly when it reports success |
| TaskForm.NormaliseUser | src/components/TaskForm.tsx:46-51 | The id is `_id`, else `id`, else '' (empty strings skipped); names and email copied |
| TaskForm.NormaliseUsers | src/components/TaskForm.tsx:45-52 | Every fetched user is normalised, in order |
| TaskForm.AssigneeChoices | src/components/TaskForm.tsx:186-199 | One choice per user id, or the single placeholder '' when the list is empty |
| TaskForm.ResolveAssignee | src/components/TaskForm.tsx:74-76 | The pre-filled assignee is the raw id, or the embedded user's `_id` |
| TaskForm.PreFill | src/components/TaskForm.tsx:67-82 | Edit mode copies name, description, dates, resolved assignee and active flag; create mode resets to empty fields with active true |
| TaskForm.Title | src/components/TaskForm.tsx:123 | 'Edit Task' exactly when a task is given, 'Create New Task' otherwise |
| TaskForm.Valid | src/components/TaskForm.tsx:139-181 | A valid form has a non-empty name and assignee and both dates; an empty name or assignee is never valid |
| TaskForm.Validate | src/components/TaskForm.tsx:139-181 | No error exactly when name, both dates and assignee are given and the description is at most 1250 characters |
| TaskForm.ValidateReportsEachRule | src/components/TaskForm.tsx:140-181 | Each field's error shows exactly when its own rule is broken |
| TaskForm.ValidImpliesDates | src/components/TaskForm.tsx:86-92 | After validation both dates are present, so the separate date guard never fires |
| TaskForm.PickingUnidentifiedUserRejected | src/components/TaskForm.tsx:45-52 | A fetched user is offered as the empty value exactly when it has neither a non-empty `_id` nor a non-empty `id`, and picking it fails the assignee rule exactly then |
| TaskForm.PlaceholderAssigneeRejected | src/components/TaskForm.tsx:177-199 | The 'No users available' placeholder fails the assignee rule |
| TaskForm.StartAfterEndAccepted | src/components/TaskForm.tsx:161-175 | An end date before the start date passes validation |
| TaskForm.Payload | src/components/TaskForm.tsx:94-101 | Name, description, dates and assignee are copied; isActive is the switch value, or true when unset |
| TaskForm.EditRoundTrip | src/components/TaskForm.tsx:67-101 | Saving an edit form without changes sends the task's own fields back |
| TaskForm.Submit | src/components/TaskForm.tsx:84-119 | No call when validation fails; `updateTask(task._id, payload)` exactly when a task was given, `createTask(payload)` otherwise; onSuccess exactly when the reply reports success |
| TaskForm.DispatchTarget | src/components/TaskForm.tsx:103-105 | A valid edit submits a PUT to the task's path; a valid create POSTs the payload; a transport failure never succeeds |
| TaskManagement.RoleOf | src/TaskManagement.tsx:17-19 | The role defaults to 'user' |
| TaskManagement.HeaderControls | src/TaskManagement.tsx:96-114 | Refresh always shows; Add Task shows exactly for admin |
| TaskManagement.EditCallbackGiven | src/TaskManagement.tsx:126-144 | The lists get an edit callback exactly when the role is admin |
| TaskManagement.DefaultRoleIsRestricted | src/TaskManagement.tsx:17-31 | Add Task and the edit callback exist exactly when the host passes the admin role |
| TaskManagement.Mount | src/TaskManagement.tsx:26-53 | The first render makes one request, for the initial filters, with the form closed |
| TaskManagement.Fetch | src/TaskManagement.tsx:33-49 | Requests the list with the current filters; on success both lists become the reply's data; on failure both stay and 'Failed to load tasks' shows |
| TaskManagement.MountRequestsActiveTasks | src/TaskManagement.tsx:21-53 | The first fetch requests `/tasks?isActive=true`; if its reply does not report success, by transport failure or a delivered `success: false`, the lists stay empty |
| TaskManagement.MergeFilter | src/TaskManagement.tsx:81-83 | Every field present in the new filter overrides; the others are kept |
| TaskManagement.MergeLaws | src/TaskManagement.tsx:81-83 | The empty filter changes nothing; re-merging the same update is idempotent; merging is associative |
| TaskManagement.TabConstraint | src/TaskManagement.tsx:85-90 | 'completed' gives true, 'pending' false, any other key no constraint |
| TaskManagement.FilterChange | src/TaskManagement.tsx:81-83 | The filters become the merge, and the list is re-fetched with them |
| TaskManagement.TabChange | src/TaskManagement.tsx:85-90 | Only isCompleted changes, to the tab's constraint, and the list is re-fetched |
| TaskManagement.TabChangeTouchesOnlyCompleted | src/TaskManagement.tsx:85-90 | Every filter field other than isCompleted is unchanged |
| TaskManagement.ResetKeepsConstraints | src/components/TaskFilter.tsx:36-39 | The panel's Reset leaves all constraints as they were and still triggers one fetch |
| TaskManagement.ApplyKeepsForeignConstraints | src/components/TaskFilter.tsx:17-34 | Apply never changes isCompleted, assignedTo, page or limit, and cannot remove an active flag once set |
| TaskManagement.AddTask | src/TaskManagement.tsx:55-58 | Opens the form in create mode; no request, and lists, filters and notices unchanged |
| TaskManagement.EditTask | src/TaskManagement.tsx:60-63 | Opens the form on the given task; no request, and lists, filters and notices unchanged |
| TaskManagement.CancelForm | src/TaskManagement.tsx:65-68 | Closes the form and clears the editing slot; no request |
| TaskManagement.FormSuccess | src/TaskManagement.tsx:70-75 | Closes the form, clears the slot, makes one request with the current filters, and reports "updated" exactly when a task was being edited, "created" otherwise |
| TaskManagement.StatusChange | src/TaskManagement.tsx:77-79 | One request with the current filters; filters and form untouched |
| TaskManagement.FormTransitions | src/TaskManagement.tsx:55-75 | Add opens the form with no editing task; Edit opens it on the task; Cancel and Success close it and clear the slot |
| TaskManagement.RunConsistent | src/TaskManagement.tsx:55-75 | In every session a closed form holds no editing task |
| TaskManagement.RunRequests | src/TaskManagement.tsx:51-90 | Each save, status change, filter change or tab change makes exactly one list request; opening and cancelling the form make none |
| TaskManagement.UserNeverOpensForm | src/TaskManagement.tsx:106-126 | Without the admin role the form never opens |
| TaskManagement.CreateSessionFetchesTwice | src/TaskManagement.tsx:51-75 | Mount, Add, a successful create of valid fields and the success callback: createTask gets the payload, and there are two list requests in all |
| TaskManagement.NameOnlyCreateRejected | src/TaskManagement.test.tsx:64-88 | A create form holding only a name is rejected with "Failed to create task", so no create call is made and the session keeps its single list request |
| TaskManagement.Select | src/TaskManagement.tsx:132-141 | Each selected task is from the list and has the requested completed flag |
| TaskManagement.TabContents | src/TaskManagement.tsx:120-147 | The All tab shows the list itself; Pending and Completed show only tasks of the list of their kind |
| TaskManagement.SelectMembers | src/TaskManagement.tsx:130-146 | A task is in the Pending (Completed) view exactly when it is in the list and not completed (completed) |
| TaskManagement.SelectAppend | src/TaskManagement.tsx:130-146 | Tab selection distributes over concatenation, so relative order is preserved |
| TaskManagement.TabsPartition | src/TaskManagement.tsx:130-146 | The Pending and Completed views split the list: their multisets add up to the list's |
| TaskManagement.TabViews | src/TaskManagement.tsx:120-147 | The All tab is the fetched list itself; the other two hold only tasks of their kind |
| TaskManagement.TabRowsShowTheirTag | src/TaskManagement.tsx:130-147 | Every row of the Completed tab is tagged COMPLETED and every row of the Pending tab PENDING |

## Left out

- HTTP itself is not modelled: axios, `localStorage` and the `/api/users` request. Replies, the token and the user list are parameters.
- Percent-encoding by `URLSearchParams` is not modelled. Pairs are joined as raw `key=value` text.
- TaskService.TasksPathDecodes: requires that the assignee id and sort key contain no `&`, because without percent-encoding such a value would split. TaskService.QueryStringRoundTrip carries the same requirement on every parameter value, for the same reason.
- `Date` parsing, `toISOString`, `toLocaleDateString` and dayjs are not modelled. Dates are opaque integer milliseconds. `Math.ceil` on the floating-point quotient is taken as the exact ceiling; this holds for realistic timestamps.
- TaskManagement.Fetch: the catch branch ("Error loading tasks") is left out. `getTasks` catches errors of the HTTP exchange itself, but reading the token and building the axios instance happen outside that `try`, and a delivered `null` body would throw on `.success`; neither is modelled. The `loading` flag is not modelled either.
- TaskList.HandleDelete: the catch branch with "Please try again" is left out, for the same reasons. The same goes for TaskList.HandleCompletionChange.
- TaskForm.Submit: the 'Please select valid dates' branch is not a branch of the model. TaskForm.ValidImpliesDates shows it cannot be reached.
- TaskForm.Submit: of the catch branch, only the validation failure is modelled. Other throws inside the `try` are left out, as for TaskManagement.Fetch: reading the token, building the axios instance, and `.success` on a `null` reply body. Each would show the same "Failed to create task" (or "update") notice.
- TaskForm.PreFill: the `task.isActive ?? true` default is never taken, because `Task.isActive` is a required boolean in the record type.
- Rendering is not modelled: antd/React, Table pagination, Popconfirm, `Math.random` option keys. Notices are recorded as values in a log, not displayed.
- Async races between in-flight fetches are not modelled. Each fetch is applied atomically, in the order of the events that trigger it.
- The explicit-`undefined` keys of object spread are not modelled. Absent and undefined fields are the same `None`. The code writes `undefined` in six places. Three are data: the initial `isCompleted` (src/TaskManagement.tsx:27), the tab change's `isCompleted` (src/TaskManagement.tsx:88), and the reopened `completionDate` (src/components/TaskList.tsx:44). In each, an undefined value has the same effect as a missing key: the query skips it, the spread of the tab change is modelled directly, and JSON drops it from the request body. The other three are the `onEdit` props of the three lists (src/TaskManagement.tsx:126, 135 and 144), where `undefined` means no edit callback; `TaskManagement.EditCallbackGiven` models them.
- The base URL `http://localhost:5000/api` and the JSON content type are not modelled; request paths are relative to the base URL.
- The texts of the inline validation messages are not modelled. `TaskForm.Validate` reports which fields fail, in form order.
- The async-validator's counting of astral characters in the 1250 limit is not modelled. The description length is its `seq<char>` length.
- Whitespace-only names pass the required rule, as in the code.
- The `userId` prop is not modelled; the code never reads it.
- The pagination block of the list reply is not modelled; no component reads it.
- The `/api/users` reply's failure notice ("Failed to load users") is not modelled; the user list is a parameter.
- Build and harness files are not modelled: `webpack.config.js`, `jest.config.js`, `src/setupTests.ts`, `src/bootstrap.tsx`.

## Findings

| source | as written | input that shows it | evidently intended | confidence | as-written member | corrected member |
|---|---|---|---|---|---|---|
| src/TaskManagement.test.tsx:41-88 | The "admin can create a new task" test types only the task name, submits, and expects `createTask` to be called and two list requests. Before that, it calls `mockResolvedValue` on `getTasks` (line 43) although the service module is never replaced by a mock, and at line 77 `getByText(/Create/i)` matches both the modal title "Create New Task" and the "Create" button | A create form with name "Test Task" and no dates or assignee: the required rules reject it, so no create call is made and only the mount's request happens | Mock the service module (`jest.mock('./services/taskService')`), pick the button by a unique query such as its role and exact name, and fill the dates and the assignee before submitting, so that the save and the refresh happen | not executed; medium: the test setup replaces only the notice API of antd, so the form and its rules are the real ones | TaskManagement.NameOnlyCreateRejected | TaskManagement.CreateSessionFetchesTwice |
