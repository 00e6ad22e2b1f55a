/** The create/edit modal (src/components/TaskForm.tsx): pre-filling from the
    edited task, normalising the fetched users, the field rules, the payload
    and the create-or-update dispatch. */
module TaskForm {
  import opened Wrappers
  import opened Types
  import opened TaskService

  // ---------------------------------------------------------------------------
  // Users offered for assignment

  /** A user as `/api/users` returns it; `_id` (here `objectId`) and `id` may
      each be missing. */
  datatype RawUser = RawUser(objectId: Option<string>, id: Option<string>, firstName: string, lastName: string, email: string)

  /** A user as the form's select holds it. */
  datatype FormUser = FormUser(id: string, firstName: string, lastName: string, email: string)

  /** `id: user._id || user.id || ''`, the other fields copied. */
  function NormaliseUser(u: RawUser): (r: FormUser)
    ensures Truthy(u.objectId) ==> r.id == u.objectId.value
    ensures !Truthy(u.objectId) && Truthy(u.id) ==> r.id == u.id.value
    ensures !Truthy(u.objectId) && !Truthy(u.id) ==> r.id == ""
    ensures r.firstName == u.firstName && r.lastName == u.lastName && r.email == u.email
  {
    var id := if Truthy(u.objectId) then u.objectId.value else if Truthy(u.id) then u.id.value else "";
    FormUser(id, u.firstName, u.lastName, u.email)
  }

  function NormaliseUsers(us: seq<RawUser>): (fs: seq<FormUser>)
    ensures |fs| == |us|
    ensures forall i :: 0 <= i < |us| ==> fs[i] == NormaliseUser(us[i])
  {
    if us == [] then [] else [NormaliseUser(us[0])] + NormaliseUsers(us[1..])
  }

  /** The values the assignee select offers: one per user, or the single
      placeholder "" ("No users available") when the list is empty. */
  function AssigneeChoices(users: seq<FormUser>): (values: seq<string>)
    ensures users == [] ==> values == [""]
    ensures users != [] ==> |values| == |users| && forall i :: 0 <= i < |users| ==> values[i] == users[i].id
  {
    if users == [] then [""] else seq(|users|, i requires 0 <= i < |users| => users[i].id)
  }

  // ---------------------------------------------------------------------------
  // Field values and pre-fill

  /** The form's fields; a picked date is its timestamp. */
  datatype FormFields = FormFields(
    name: Option<string>,
    description: Option<string>,
    startDate: Option<Timestamp>,
    endDate: Option<Timestamp>,
    assignedTo: Option<string>,
    isActive: Option<bool>)

  /** The fields after `resetFields()`: all empty, the switch at its initial
      value `true`. */
  const CreateDefaults := FormFields(None, None, None, None, None, Some(true))

  /** The assignee id the edit form selects, whichever shape the task holds. */
  function ResolveAssignee(a: Assignee): (id: string)
    ensures a.ById? ==> id == a.userId
    ensures a.Embedded? ==> id == a.user.id
  {
    match a
    case ById(id) => id
    case Embedded(u) => u.id
  }

  /** The effect run when the `task` prop changes. */
  function PreFill(task: Option<Task>): (v: FormFields)
    ensures task.None? ==> v == CreateDefaults
    ensures task.Some? ==>
      && v.name == Some(task.value.name)
      && v.description == task.value.description
      && v.startDate == Some(task.value.startDate)
      && v.endDate == Some(task.value.endDate)
      && v.assignedTo == Some(ResolveAssignee(task.value.assignedTo))
      && v.isActive == Some(task.value.isActive)
  {
    match task
    case None => CreateDefaults
    case Some(t) =>
      FormFields(Some(t.name), t.description, Some(t.startDate), Some(t.endDate),
                 Some(ResolveAssignee(t.assignedTo)), Some(t.isActive))
  }

  /** The modal title. */
  function Title(task: Option<Task>): (title: string)
    ensures title == "Edit Task" <==> task.Some?
    ensures task.None? ==> title == "Create New Task"
  {
    if task.Some? then "Edit Task" else "Create New Task"
  }

  // ---------------------------------------------------------------------------
  // Validation

  const MaxDescription := 1250

  datatype Field = NameField | DescriptionField | StartDateField | EndDateField | AssigneeField

  /** The five field rules. A required text rejects a missing value and the
      empty string; a date only a missing one. Nothing relates the two dates. */
  predicate Valid(v: FormFields)
    ensures Valid(v) ==> v.name.Some? && v.startDate.Some? && v.endDate.Some? && v.assignedTo.Some?
    ensures Valid(v) ==> v.name.value != "" && v.assignedTo.value != ""
    ensures v.name == Some("") || v.assignedTo == Some("") ==> !Valid(v)
  {
    && Truthy(v.name)
    && (v.description.Some? ==> |v.description.value| <= MaxDescription)
    && v.startDate.Some?
    && v.endDate.Some?
    && Truthy(v.assignedTo)
  }

  function Check(ok: bool, field: Field): seq<Field> {
    if ok then [] else [field]
  }

  /** The fields showing an inline error, in form order. */
  function Validate(v: FormFields): (errs: seq<Field>)
    ensures errs == [] <==> Valid(v)
    ensures |errs| <= 5
  {
    Check(Truthy(v.name), NameField)
    + Check(v.description.None? || |v.description.value| <= MaxDescription, DescriptionField)
    + Check(v.startDate.Some?, StartDateField)
    + Check(v.endDate.Some?, EndDateField)
    + Check(Truthy(v.assignedTo), AssigneeField)
  }

  /** Each rule reports its own field exactly when that rule is broken. */
  lemma ValidateReportsEachRule(v: FormFields)
    ensures NameField in Validate(v) <==> !Truthy(v.name)
    ensures DescriptionField in Validate(v) <==>
      v.description.Some? && |v.description.value| > MaxDescription
    ensures StartDateField in Validate(v) <==> v.startDate.None?
    ensures EndDateField in Validate(v) <==> v.endDate.None?
    ensures AssigneeField in Validate(v) <==> !Truthy(v.assignedTo)
  {
  }

  /** After validation both dates are present, so the separate "Please select
      valid dates" guard in the submit handler never fires. */
  lemma ValidImpliesDates(v: FormFields)
    requires Validate(v) == []
    ensures v.startDate.Some? && v.endDate.Some?
  {
  }

  /** The placeholder shown when no user was loaded cannot be submitted. */
  lemma PlaceholderAssigneeRejected(v: FormFields)
    requires v.assignedTo == Some(AssigneeChoices([])[0])
    ensures AssigneeField in Validate(v)
  {
  }

  /** Picking the `i`-th offered user fails the assignee rule exactly when
      that user came back with neither a truthy `_id` nor a truthy `id`. */
  lemma {:induction false} PickingUnidentifiedUserRejected(us: seq<RawUser>, i: int, v: FormFields)
    requires 0 <= i < |us|
    requires v.assignedTo == Some(AssigneeChoices(NormaliseUsers(us))[i])
    ensures AssigneeChoices(NormaliseUsers(us))[i] == "" <==> !Truthy(us[i].objectId) && !Truthy(us[i].id)
    ensures AssigneeField in Validate(v) <==> !Truthy(us[i].objectId) && !Truthy(us[i].id)
  {
    var fs := NormaliseUsers(us);
    assert fs[i] == NormaliseUser(us[i]);
    ValidateReportsEachRule(v);
  }

  /** An end date before the start date passes validation. */
  lemma StartAfterEndAccepted()
    ensures Valid(FormFields(Some("t"), None, Some(2), Some(1), Some("u"), Some(true)))
  {
  }

  // ---------------------------------------------------------------------------
  // Payload and dispatch

  /** `taskData`: name, description and assignee copied, the dates taken, and
      the switch value, `true` when unset. */
  function Payload(v: FormFields): (p: CreateTaskRequest)
    requires Valid(v)
    ensures p.name == v.name.value && p.description == v.description
    ensures p.startDate == v.startDate.value && p.endDate == v.endDate.value
    ensures p.assignedTo == v.assignedTo.value
    ensures p.isActive == Some(if v.isActive.Some? then v.isActive.value else true)
  {
    CreateTaskRequest(v.name.value, v.description, v.startDate.value, v.endDate.value,
                      v.assignedTo.value, Some(v.isActive.OrElse(true)))
  }

  /** Opening the edit form on a task and submitting it unchanged sends back
      the task's own name, description, dates, resolved assignee and flag. */
  lemma EditRoundTrip(t: Task)
    requires t.name != "" && ResolveAssignee(t.assignedTo) != ""
    requires t.description.Some? ==> |t.description.value| <= MaxDescription
    ensures Valid(PreFill(Some(t)))
    ensures Payload(PreFill(Some(t))) ==
      CreateTaskRequest(t.name, t.description, t.startDate, t.endDate,
                        ResolveAssignee(t.assignedTo), Some(t.isActive))
  {
  }

  /** "update" in edit mode, "create" otherwise. */
  function Action(task: Option<Task>): string {
    if task.Some? then "update" else "create"
  }

  function Past(task: Option<Task>): string {
    if task.Some? then "updated" else "created"
  }

  /** What pressing the submit button did. */
  datatype Submission =
    | Rejected(notice: Notice)
    | Dispatched(call: Call<TaskResponse>, succeeded: bool, notice: Notice)

  /** `handleSubmit`. A failed validation rejects with the generic failure
      notice and makes no call; otherwise the payload goes to `updateTask`
      when a task was given, to `createTask` otherwise, and `onSuccess` runs
      exactly when the reply reports success. */
  function Submit(token: Option<string>, task: Option<Task>, v: FormFields, reply: Transport<TaskResponse>): (s: Submission)
    ensures s.Rejected? <==> !Valid(v)
    ensures s.Rejected? ==> s.notice == ErrorNotice("Failed to " + Action(task) + " task")
    ensures s.Dispatched? && task.Some? ==>
      s.call == UpdateTask(token, task.value.id, AsUpdate(Payload(v)), reply)
    ensures s.Dispatched? && task.None? ==> s.call == CreateTask(token, Payload(v), reply)
    ensures s.Dispatched? ==> (s.succeeded <==> s.call.response.success)
    ensures s.Dispatched? && s.succeeded ==> s.notice == SuccessNotice("Task " + Past(task) + " successfully")
    ensures s.Dispatched? && !s.succeeded ==>
      s.notice == ErrorNotice(MessageOr(s.call.response.message, "Failed to " + Action(task) + " task"))
  {
    if Validate(v) != [] then
      Rejected(ErrorNotice("Failed to " + Action(task) + " task"))
    else
      var call :=
        if task.Some? then UpdateTask(token, task.value.id, AsUpdate(Payload(v)), reply)
        else CreateTask(token, Payload(v), reply);
      if call.response.success then
        Dispatched(call, true, SuccessNotice("Task " + Past(task) + " successfully"))
      else
        Dispatched(call, false, ErrorNotice(MessageOr(call.response.message, "Failed to " + Action(task) + " task")))
  }

  /** The request a dispatched submission makes: a PUT to the task's own path
      in edit mode, a POST to the collection otherwise. */
  lemma DispatchTarget(token: Option<string>, task: Option<Task>, v: FormFields, reply: Transport<TaskResponse>)
    requires Valid(v)
    ensures Submit(token, task, v, reply).Dispatched?
    ensures task.Some? ==>
      && Submit(token, task, v, reply).call.request.verb == Put
      && Submit(token, task, v, reply).call.request.path == "/tasks/" + task.value.id
    ensures task.None? ==>
      && Submit(token, task, v, reply).call.request.verb == Post
      && Submit(token, task, v, reply).call.request.body == CreateBody(Payload(v))
    ensures reply.TransportError? ==> !Submit(token, task, v, reply).succeeded
  {
  }
}
