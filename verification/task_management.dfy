/** The controller (src/TaskManagement.tsx): the task list and filter state,
    the form's visibility, the fetch that follows every filter change and
    every successful mutation, the tab views and the role gating.

    A fetch is taken as one step: the request is built from the current
    filters and the transport's reply, given as a parameter, is applied at
    once. The state logs every request made and every notice shown. */
module TaskManagement {
  import opened Wrappers
  import opened Types
  import opened TaskService
  import FilterPanel
  import TaskForm
  import TaskList

  // ---------------------------------------------------------------------------
  // Role gating

  /** The `userRole` prop, `'user'` when the host passes none. */
  function RoleOf(prop: Option<Role>): (r: Role)
    ensures prop.None? ==> r == RegularUser
    ensures prop.Some? ==> r == prop.value
  {
    prop.OrElse(RegularUser)
  }

  datatype HeaderControl = RefreshButton | AddTaskButton

  /** The card's header buttons. */
  function HeaderControls(role: Role): (cs: seq<HeaderControl>)
    ensures RefreshButton in cs
    ensures AddTaskButton in cs <==> role == Admin
  {
    if role == Admin then [RefreshButton, AddTaskButton] else [RefreshButton]
  }

  /** Whether the three lists receive an edit callback (`onEdit`), which is
      `undefined` for every role but admin. */
  function EditCallbackGiven(role: Role): (given: bool)
    ensures given <==> role == Admin
  {
    role == Admin
  }

  /** Without an explicit admin role there is neither an Add button nor an
      edit callback. */
  lemma DefaultRoleIsRestricted(prop: Option<Role>)
    ensures AddTaskButton in HeaderControls(RoleOf(prop)) <==> prop == Some(Admin)
    ensures EditCallbackGiven(RoleOf(prop)) <==> prop == Some(Admin)
  {
  }

  // ---------------------------------------------------------------------------
  // State

  datatype State = State(
    tasks: seq<Task>,
    filteredTasks: seq<Task>,
    filters: TaskFilter,
    showForm: bool,
    editingTask: Option<Task>,
    requests: seq<Request>,
    notices: seq<Notice>)

  /** `{ isCompleted: undefined, isActive: true }`. */
  const InitialFilters := EmptyFilter.(isActive := Some(true))

  /** Before the mount effect runs: no tasks, active tasks only, form closed. */
  const Initial := State([], [], InitialFilters, false, None, [], [])

  /** `fetchTasks`: a successful reply replaces both lists; any other leaves
      them and shows an error. Nothing else changes. */
  function Fetch(s: State, token: Option<string>, reply: Transport<TasksResponse>): (s': State)
    ensures s'.requests == s.requests + [GetTasks(token, Some(s.filters), reply).request]
    ensures var r := GetTasks(token, Some(s.filters), reply).response;
      && (r.success ==> s'.tasks == r.data && s'.filteredTasks == r.data && s'.notices == s.notices)
      && (!r.success ==> s'.tasks == s.tasks && s'.filteredTasks == s.filteredTasks
                         && s'.notices == s.notices + [ErrorNotice("Failed to load tasks")])
    ensures s'.filters == s.filters && s'.showForm == s.showForm && s'.editingTask == s.editingTask
  {
    var call := GetTasks(token, Some(s.filters), reply);
    var s1 := s.(requests := s.requests + [call.request]);
    if call.response.success then
      s1.(tasks := call.response.data, filteredTasks := call.response.data)
    else
      s1.(notices := s.notices + [ErrorNotice("Failed to load tasks")])
  }

  /** The first render's effect: one request, for the initial filters, with
      the form closed. */
  function Mount(token: Option<string>, reply: Transport<TasksResponse>): (s: State)
    ensures s.requests == [GetTasks(token, Some(InitialFilters), reply).request]
    ensures s.filters == InitialFilters && View(s) == Closed && Consistent(s)
  {
    Fetch(Initial, token, reply)
  }

  /** The first request asks for active tasks only. */
  lemma MountRequestsActiveTasks(token: Option<string>, reply: Transport<TasksResponse>)
    ensures |Mount(token, reply).requests| == 1
    ensures Mount(token, reply).requests[0].path == "/tasks?isActive=true"
    ensures !GetTasks(token, Some(InitialFilters), reply).response.success ==>
      Mount(token, reply).tasks == [] && Mount(token, reply).filteredTasks == []
  {
  }

  // ---------------------------------------------------------------------------
  // Filter state

  /** `{ ...filters, ...newFilters }`: every field the new filter has wins. */
  function MergeFilter(cur: TaskFilter, upd: TaskFilter): (m: TaskFilter)
    ensures upd.isCompleted.Some? ==> m.isCompleted == upd.isCompleted
    ensures upd.isCompleted.None? ==> m.isCompleted == cur.isCompleted
    ensures upd.isActive.Some? ==> m.isActive == upd.isActive
    ensures upd.isActive.None? ==> m.isActive == cur.isActive
    ensures upd.startDate.Some? ==> m.startDate == upd.startDate
    ensures upd.startDate.None? ==> m.startDate == cur.startDate
    ensures upd.endDate.Some? ==> m.endDate == upd.endDate
    ensures upd.endDate.None? ==> m.endDate == cur.endDate
    ensures upd.assignedTo.Some? ==> m.assignedTo == upd.assignedTo
    ensures upd.assignedTo.None? ==> m.assignedTo == cur.assignedTo
    ensures upd.sort.Some? ==> m.sort == upd.sort
    ensures upd.sort.None? ==> m.sort == cur.sort
    ensures upd.page.Some? ==> m.page == upd.page
    ensures upd.page.None? ==> m.page == cur.page
    ensures upd.limit.Some? ==> m.limit == upd.limit
    ensures upd.limit.None? ==> m.limit == cur.limit
  {
    TaskFilter(
      Override(upd.isCompleted, cur.isCompleted),
      Override(upd.isActive, cur.isActive),
      Override(upd.startDate, cur.startDate),
      Override(upd.endDate, cur.endDate),
      Override(upd.assignedTo, cur.assignedTo),
      Override(upd.sort, cur.sort),
      Override(upd.page, cur.page),
      Override(upd.limit, cur.limit))
  }

  /** The merge is a right-biased union: `{}` is its identity on both sides,
      re-applying an update changes nothing, and merging is associative. */
  lemma MergeLaws(f: TaskFilter, g: TaskFilter, h: TaskFilter)
    ensures MergeFilter(f, EmptyFilter) == f
    ensures MergeFilter(EmptyFilter, g) == g
    ensures MergeFilter(MergeFilter(f, g), g) == MergeFilter(f, g)
    ensures MergeFilter(MergeFilter(f, g), h) == MergeFilter(f, MergeFilter(g, h))
  {
  }

  /** The completed-flag constraint a tab key stands for. */
  function TabConstraint(key: string): (c: Option<bool>)
    ensures c == Some(true) <==> key == "completed"
    ensures c == Some(false) <==> key == "pending"
    ensures c.None? <==> key != "completed" && key != "pending"
  {
    if key == "completed" then Some(true) else if key == "pending" then Some(false) else None
  }

  // ---------------------------------------------------------------------------
  // Intents

  /** Opens the form in create mode; no request, lists and filters kept. */
  function AddTask(s: State): (s': State)
    ensures View(s') == OpenCreate && s'.editingTask.None?
    ensures s'.tasks == s.tasks && s'.filteredTasks == s.filteredTasks && s'.filters == s.filters
    ensures s'.requests == s.requests && s'.notices == s.notices
  {
    s.(editingTask := None, showForm := true)
  }

  /** Opens the form on `t`; no request, lists and filters kept. */
  function EditTask(s: State, t: Task): (s': State)
    ensures View(s') == OpenEdit(t)
    ensures s'.tasks == s.tasks && s'.filteredTasks == s.filteredTasks && s'.filters == s.filters
    ensures s'.requests == s.requests && s'.notices == s.notices
  {
    s.(editingTask := Some(t), showForm := true)
  }

  /** Closes the form and clears the slot; no request. */
  function CancelForm(s: State): (s': State)
    ensures View(s') == Closed && s'.editingTask.None?
    ensures s'.tasks == s.tasks && s'.filteredTasks == s.filteredTasks && s'.filters == s.filters
    ensures s'.requests == s.requests && s'.notices == s.notices
  {
    s.(showForm := false, editingTask := None)
  }

  /** Closes the form, re-fetches once with the current filters, and reports
      which kind of save it was from the editing slot as it stood before the
      close. */
  function FormSuccess(s: State, token: Option<string>, reply: Transport<TasksResponse>): (s': State)
    ensures View(s') == Closed && s'.editingTask.None? && s'.filters == s.filters
    ensures s'.requests == s.requests + [GetTasks(token, Some(s.filters), reply).request]
    ensures |s'.notices| > |s.notices|
    ensures s'.notices[|s.notices|] ==
      SuccessNotice("Task " + (if s.editingTask.Some? then "updated" else "created") + " successfully")
  {
    var text := "Task " + (if s.editingTask.Some? then "updated" else "created") + " successfully";
    Fetch(s.(showForm := false, editingTask := None, notices := s.notices + [SuccessNotice(text)]), token, reply)
  }

  /** `handleTaskStatusChange` and the Refresh button: one request with the
      current filters; filters and form untouched. */
  function StatusChange(s: State, token: Option<string>, reply: Transport<TasksResponse>): (s': State)
    ensures s'.requests == s.requests + [GetTasks(token, Some(s.filters), reply).request]
    ensures s'.filters == s.filters && s'.showForm == s.showForm && s'.editingTask == s.editingTask
  {
    Fetch(s, token, reply)
  }

  /** The new filter object triggers the fetch effect. */
  function FilterChange(s: State, upd: TaskFilter, token: Option<string>, reply: Transport<TasksResponse>): (s': State)
    ensures s'.filters == MergeFilter(s.filters, upd)
    ensures s'.requests == s.requests + [GetTasks(token, Some(MergeFilter(s.filters, upd)), reply).request]
    ensures s'.showForm == s.showForm && s'.editingTask == s.editingTask
  {
    Fetch(s.(filters := MergeFilter(s.filters, upd)), token, reply)
  }

  function TabChange(s: State, key: string, token: Option<string>, reply: Transport<TasksResponse>): (s': State)
    ensures s'.filters == s.filters.(isCompleted := TabConstraint(key))
    ensures s'.requests == s.requests + [GetTasks(token, Some(s'.filters), reply).request]
    ensures s'.showForm == s.showForm && s'.editingTask == s.editingTask
  {
    Fetch(s.(filters := s.filters.(isCompleted := TabConstraint(key))), token, reply)
  }

  /** A filter change that carries nothing, such as the panel's Reset, leaves
      every constraint as it was (it still re-fetches). */
  lemma ResetKeepsConstraints(s: State, v: FilterPanel.FormValues, token: Option<string>, reply: Transport<TasksResponse>)
    ensures FilterChange(s, FilterPanel.Reset(v).1, token, reply).filters == s.filters
    ensures |FilterChange(s, FilterPanel.Reset(v).1, token, reply).requests| == |s.requests| + 1
  {
  }

  /** Apply never touches the tab's completed flag, the assignee, page or
      limit, and once the active flag is set no panel output removes it. */
  lemma ApplyKeepsForeignConstraints(f: TaskFilter, v: FilterPanel.FormValues)
    ensures MergeFilter(f, FilterPanel.BuildFilter(v)).isCompleted == f.isCompleted
    ensures MergeFilter(f, FilterPanel.BuildFilter(v)).assignedTo == f.assignedTo
    ensures MergeFilter(f, FilterPanel.BuildFilter(v)).page == f.page
    ensures MergeFilter(f, FilterPanel.BuildFilter(v)).limit == f.limit
    ensures f.isActive.Some? ==> MergeFilter(f, FilterPanel.BuildFilter(v)).isActive.Some?
  {
  }

  /** Changing tabs moves only the completed flag. */
  lemma TabChangeTouchesOnlyCompleted(s: State, key: string, token: Option<string>, reply: Transport<TasksResponse>)
    ensures var f := TabChange(s, key, token, reply).filters;
      && f.isCompleted == TabConstraint(key)
      && f.isActive == s.filters.isActive && f.startDate == s.filters.startDate
      && f.endDate == s.filters.endDate && f.assignedTo == s.filters.assignedTo
      && f.sort == s.filters.sort && f.page == s.filters.page && f.limit == s.filters.limit
  {
  }

  // ---------------------------------------------------------------------------
  // Form visibility

  datatype FormView = Closed | OpenCreate | OpenEdit(task: Task)

  /** What the two fields `showForm` and `editingTask` stand for. */
  function View(s: State): FormView {
    if !s.showForm then Closed
    else if s.editingTask.Some? then OpenEdit(s.editingTask.value)
    else OpenCreate
  }

  /** A closed form holds no editing task. */
  predicate Consistent(s: State) {
    !s.showForm ==> s.editingTask.None?
  }

  /** Add opens an empty form, Edit opens it on the given task, Cancel and
      Success close it and clear the slot. */
  lemma FormTransitions(s: State, t: Task, token: Option<string>, reply: Transport<TasksResponse>)
    ensures View(AddTask(s)) == OpenCreate && AddTask(s).editingTask.None?
    ensures View(EditTask(s, t)) == OpenEdit(t)
    ensures View(CancelForm(s)) == Closed && CancelForm(s).editingTask.None?
    ensures View(FormSuccess(s, token, reply)) == Closed && FormSuccess(s, token, reply).editingTask.None?
  {
  }

  // ---------------------------------------------------------------------------
  // Sessions

  /** A user interaction, with the reply of the fetch it triggers. */
  datatype Event =
    | Add
    | Edit(task: Task)
    | Cancel
    | Saved(reply: Transport<TasksResponse>)
    | StatusChanged(reply: Transport<TasksResponse>)
    | FilterChanged(upd: TaskFilter, reply: Transport<TasksResponse>)
    | TabChanged(key: string, reply: Transport<TasksResponse>)

  /** Add needs the Add button and Edit the edit callback: both admin only. */
  predicate Enabled(role: Role, e: Event) {
    && (e.Add? ==> AddTaskButton in HeaderControls(role))
    && (e.Edit? ==> EditCallbackGiven(role))
  }

  predicate Fetches(e: Event) {
    !(e.Add? || e.Edit? || e.Cancel?)
  }

  function Step(s: State, token: Option<string>, e: Event): State {
    match e
    case Add => AddTask(s)
    case Edit(t) => EditTask(s, t)
    case Cancel => CancelForm(s)
    case Saved(r) => FormSuccess(s, token, r)
    case StatusChanged(r) => StatusChange(s, token, r)
    case FilterChanged(f, r) => FilterChange(s, f, token, r)
    case TabChanged(k, r) => TabChange(s, k, token, r)
  }

  function Run(s: State, token: Option<string>, es: seq<Event>): State
    decreases |es|
  {
    if es == [] then s else Run(Step(s, token, es[0]), token, es[1..])
  }

  function FetchCount(es: seq<Event>): nat {
    if es == [] then 0 else (if Fetches(es[0]) then 1 else 0) + FetchCount(es[1..])
  }

  /** Every session keeps the two form fields consistent. */
  lemma {:induction false} RunConsistent(s: State, token: Option<string>, es: seq<Event>)
    requires Consistent(s)
    ensures Consistent(Run(s, token, es))
    decreases |es|
  {
    if es != [] {
      RunConsistent(Step(s, token, es[0]), token, es[1..]);
    }
  }

  /** Exactly one list request per fetching event, none for the others. */
  lemma {:induction false} RunRequests(s: State, token: Option<string>, es: seq<Event>)
    ensures |Run(s, token, es).requests| == |s.requests| + FetchCount(es)
    decreases |es|
  {
    if es != [] {
      RunRequests(Step(s, token, es[0]), token, es[1..]);
    }
  }

  /** Without the admin role the form never opens, whatever the session. */
  lemma {:induction false} UserNeverOpensForm(s: State, token: Option<string>, es: seq<Event>)
    requires View(s) == Closed && Consistent(s)
    requires forall i :: 0 <= i < |es| ==> Enabled(RegularUser, es[i])
    ensures View(Run(s, token, es)) == Closed
    decreases |es|
  {
    if es != [] {
      var s1 := Step(s, token, es[0]);
      assert Enabled(RegularUser, es[0]);
      assert View(s1) == Closed && Consistent(s1);
      UserNeverOpensForm(s1, token, es[1..]);
    }
  }

  /** The create flow: mount, Add (the form opens in create mode, so the
      form dispatches `createTask`), a successful save of valid fields, then
      the success callback: two list requests in all. */
  lemma CreateSessionFetchesTwice(token: Option<string>, r0: Transport<TasksResponse>, fields: TaskForm.FormFields,
                                  created: TaskResponse, r1: Transport<TasksResponse>)
    requires TaskForm.Valid(fields) && created.success
    ensures var s1 := AddTask(Mount(token, r0));
      var sub := TaskForm.Submit(token, s1.editingTask, fields, Delivered(created));
      && sub.Dispatched? && sub.succeeded
      && sub.call.request.body == CreateBody(TaskForm.Payload(fields))
      && |FormSuccess(s1, token, r1).requests| == 2
      && View(FormSuccess(s1, token, r1)) == Closed
  {
  }

  /** A create form holding only a name fails the required rules of the
      dates and the assignee: nothing is dispatched, the success callback
      never runs, and the session keeps its single list request. */
  lemma NameOnlyCreateRejected(token: Option<string>, r0: Transport<TasksResponse>, name: string,
                               reply: Transport<TaskResponse>)
    ensures var s1 := AddTask(Mount(token, r0));
      var fields := TaskForm.PreFill(s1.editingTask).(name := Some(name));
      && TaskForm.Submit(token, s1.editingTask, fields, reply).Rejected?
      && TaskForm.Submit(token, s1.editingTask, fields, reply).notice == ErrorNotice("Failed to create task")
      && |s1.requests| == 1
  {
  }

  // ---------------------------------------------------------------------------
  // Tabs

  /** The tasks whose completed flag equals `completed`, in list order. */
  function Select(ts: seq<Task>, completed: bool): (r: seq<Task>)
    ensures |r| <= |ts|
    ensures forall i :: 0 <= i < |r| ==> r[i] in ts && r[i].isCompleted == completed
  {
    if ts == [] then []
    else (if ts[0].isCompleted == completed then [ts[0]] else []) + Select(ts[1..], completed)
  }

  /** The list each tab shows: all of `filteredTasks`, or its pending or
      completed part. */
  function TabContents(key: string, filtered: seq<Task>): (shown: seq<Task>)
    ensures key != "pending" && key != "completed" ==> shown == filtered
    ensures key == "pending" ==> forall i :: 0 <= i < |shown| ==> shown[i] in filtered && !shown[i].isCompleted
    ensures key == "completed" ==> forall i :: 0 <= i < |shown| ==> shown[i] in filtered && shown[i].isCompleted
  {
    if key == "pending" then Select(filtered, false)
    else if key == "completed" then Select(filtered, true)
    else filtered
  }

  lemma {:induction false} SelectMembers(ts: seq<Task>, completed: bool)
    ensures forall t :: t in Select(ts, completed) <==> t in ts && t.isCompleted == completed
  {
    if ts != [] {
      SelectMembers(ts[1..], completed);
      assert ts == [ts[0]] + ts[1..];
    }
  }

  /** Selection distributes over concatenation, so it keeps relative order. */
  lemma {:induction false} SelectAppend(a: seq<Task>, b: seq<Task>, completed: bool)
    ensures Select(a + b, completed) == Select(a, completed) + Select(b, completed)
  {
    if a == [] {
      assert a + b == b;
    } else {
      var head := if a[0].isCompleted == completed then [a[0]] else [];
      var ab := a + b;
      assert ab[0] == a[0];
      assert ab[1..] == a[1..] + b;
      calc {
        Select(ab, completed);
        head + Select(a[1..] + b, completed);
        { SelectAppend(a[1..], b, completed); }
        head + (Select(a[1..], completed) + Select(b, completed));
        (head + Select(a[1..], completed)) + Select(b, completed);
        Select(a, completed) + Select(b, completed);
      }
    }
  }

  /** The Pending and Completed tabs split the list: each task, counted with
      its multiplicity, lands in exactly one of them. */
  lemma {:induction false} TabsPartition(ts: seq<Task>)
    ensures multiset(Select(ts, false)) + multiset(Select(ts, true)) == multiset(ts)
    ensures |Select(ts, false)| + |Select(ts, true)| == |ts|
  {
    if ts != [] {
      TabsPartition(ts[1..]);
      assert ts == [ts[0]] + ts[1..];
    }
  }

  /** The All tab is the fetched list; the other two hold only tasks of their
      own kind. */
  lemma {:induction false} TabViews(filtered: seq<Task>)
    ensures TabContents("all", filtered) == filtered
    ensures forall t :: t in TabContents("completed", filtered) <==> t in filtered && t.isCompleted
    ensures forall t :: t in TabContents("pending", filtered) <==> t in filtered && !t.isCompleted
  {
    SelectMembers(filtered, true);
    SelectMembers(filtered, false);
  }

  /** Every row of the Completed tab carries the COMPLETED tag and every row
      of the Pending tab the PENDING tag. */
  lemma {:induction false} TabRowsShowTheirTag(filtered: seq<Task>)
    ensures forall t :: t in TabContents("completed", filtered) ==> TaskList.StatusTags(t).1.text == "COMPLETED"
    ensures forall t :: t in TabContents("pending", filtered) ==> TaskList.StatusTags(t).1.text == "PENDING"
  {
    SelectMembers(filtered, true);
    SelectMembers(filtered, false);
  }
}
