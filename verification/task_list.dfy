/** The task table (src/components/TaskList.tsx): per-row derivations
    (assignee label, status tags, role-gated actions) and the two mutating row
    handlers, which refresh the list only on success. */
module TaskList {
  import opened Wrappers
  import opened Types
  import opened TaskService
  import TaskItem

  const Unassigned := "Unassigned"

  /** The "Assigned To" cell. The render receives whatever the server sent, so
      it also handles a missing assignee; an empty id is falsy and reads as
      unassigned too. */
  function AssigneeLabel(a: Option<Assignee>): (text: string)
    ensures a.None? ==> text == Unassigned
    ensures a.Some? && a.value.ById? ==>
      text == (if a.value.userId == "" then Unassigned else a.value.userId)
    ensures a.Some? && a.value.Embedded? ==>
      text == a.value.user.firstName + " " + a.value.user.lastName
  {
    match a
    case None => Unassigned
    case Some(ById(id)) => if id == "" then Unassigned else id
    case Some(Embedded(u)) => u.firstName + " " + u.lastName
  }

  /** A populated user never reads as "Unassigned": its label has a space,
      which the fallback text lacks. */
  lemma EmbeddedNeverUnassigned(u: User)
    ensures AssigneeLabel(Some(Embedded(u))) != Unassigned
  {
    var text := AssigneeLabel(Some(Embedded(u)));
    assert text[|u.firstName|] == ' ';
    assert ' ' !in Unassigned;
  }

  datatype Tag = Tag(text: string, color: string)

  /** The two status tags of a row. */
  function StatusTags(t: Task): (tags: (Tag, Tag))
    ensures tags.0.text == "ACTIVE" <==> t.isActive
    ensures !t.isActive <==> tags.0.text == "INACTIVE"
    ensures tags.1.text == "COMPLETED" <==> t.isCompleted
    ensures !t.isCompleted <==> tags.1.text == "PENDING"
  {
    (if t.isActive then Tag("ACTIVE", "blue") else Tag("INACTIVE", "default"),
     if t.isCompleted then Tag("COMPLETED", "success") else Tag("PENDING", "processing"))
  }

  /** The body sent when the switch moves to `checked`: the completion date is
      the current time when completing and absent when reopening. */
  function CompletionRequestFor(checked: bool, now: Timestamp): (r: CompletionRequest)
    ensures r.isCompleted == checked
    ensures r.completionDate.Some? <==> checked
    ensures checked ==> r.completionDate == Some(now)
  {
    CompletionRequest(checked, if checked then Some(now) else None)
  }

  /** The controls in a row's Actions cell, each carrying what it hands on. */
  datatype RowAction = EditButton(task: Task) | DeleteButton(id: string) | CompletionSwitch(id: string, checked: bool)

  function RowActions(role: Role, t: Task): (actions: seq<RowAction>)
    ensures role == Admin ==> actions == [EditButton(t), DeleteButton(t.id)]
    ensures role != Admin ==> actions == [CompletionSwitch(t.id, t.isCompleted)]
  {
    if role == Admin then [EditButton(t), DeleteButton(t.id)]
    else [CompletionSwitch(t.id, t.isCompleted)]
  }

  /** An admin row has no switch, a user row neither edit nor delete, and
      every control is bound to its own row's task. */
  lemma RowActionsGated(role: Role, t: Task)
    ensures forall a :: a in RowActions(role, t) ==> (a.CompletionSwitch? <==> role != Admin)
    ensures forall a :: a in RowActions(role, t) && a.EditButton? ==> a.task == t
    ensures forall a :: a in RowActions(role, t) && !a.EditButton? ==> a.id == t.id
  {
  }

  /** The edit button's click: the callback, when the list was given one,
      receives the row's task. */
  function EditClick(hasOnEdit: bool, t: Task): (edited: Option<Task>)
    ensures edited.Some? <==> hasOnEdit
    ensures edited.Some? ==> edited.value == t
  {
    if hasOnEdit then Some(t) else None
  }

  /** What a row handler did: the call it made, whether it asked the parent to
      refresh (`onStatusChange`), and the notice it showed. */
  datatype Outcome<T> = Outcome(call: Call<T>, refresh: bool, notice: Notice)

  function HandleDelete(token: Option<string>, id: string, reply: Transport<DeleteResponse>): (o: Outcome<DeleteResponse>)
    ensures o.call == DeleteTask(token, id, reply)
    ensures o.refresh <==> o.call.response.success
    ensures o.refresh ==> o.notice == SuccessNotice("Task deleted successfully")
    ensures !o.refresh ==> o.notice == ErrorNotice(MessageOr(o.call.response.message, "Failed to delete task"))
  {
    var call := DeleteTask(token, id, reply);
    if call.response.success then Outcome(call, true, SuccessNotice("Task deleted successfully"))
    else Outcome(call, false, ErrorNotice(MessageOr(call.response.message, "Failed to delete task")))
  }

  function HandleCompletionChange(token: Option<string>, id: string, checked: bool, now: Timestamp,
                                  reply: Transport<TaskResponse>): (o: Outcome<TaskResponse>)
    ensures o.call == UpdateTaskCompletion(token, id, CompletionRequestFor(checked, now), reply)
    ensures o.refresh <==> o.call.response.success
    ensures o.refresh ==> o.notice == SuccessNotice("Task marked as " + (if checked then "completed" else "pending"))
    ensures !o.refresh ==> o.notice == ErrorNotice(MessageOr(o.call.response.message, "Failed to update task status"))
  {
    var call := UpdateTaskCompletion(token, id, CompletionRequestFor(checked, now), reply);
    if call.response.success then
      Outcome(call, true, SuccessNotice("Task marked as " + (if checked then "completed" else "pending")))
    else
      Outcome(call, false, ErrorNotice(MessageOr(call.response.message, "Failed to update task status")))
  }

  /** Moving a user row's switch sends the opposite of the row's state for
      that row's task, with a completion date exactly when the row was
      pending. */
  lemma SwitchFlipsCompletion(token: Option<string>, t: Task, now: Timestamp, reply: Transport<TaskResponse>)
    ensures RowActions(RegularUser, t)[0].CompletionSwitch?
    ensures var sw := RowActions(RegularUser, t)[0];
      var req := HandleCompletionChange(token, sw.id, !sw.checked, now, reply).call.request;
      && req.verb == Put
      && req.path == "/tasks/" + t.id + "/completion"
      && req.body.CompletionBody?
      && req.body.completion.isCompleted == !t.isCompleted
      && (req.body.completion.completionDate.Some? <==> !t.isCompleted)
      && (!t.isCompleted ==> req.body.completion.completionDate == Some(now))
  {
  }

  /** A task whose completion date is present only when it is completed. */
  predicate DateOnlyWhenCompleted(t: Task) {
    t.completionDate.Some? ==> t.isCompleted
  }

  /** For such a task, a row whose tooltip carries a completion line is tagged
      COMPLETED and its name styled completed, whatever the clock. */
  lemma CompletionLineMeansCompleted(t: Task, now: Timestamp)
    requires DateOnlyWhenCompleted(t)
    ensures TaskItem.TooltipOf(t).completed.Some? ==> StatusTags(t).1.text == "COMPLETED"
    ensures TaskItem.TooltipOf(t).completed.Some? ==> TaskItem.TextStyle(t, now) == TaskItem.CompletedStyle
  {
  }

  /** A transport failure never refreshes the list and only notifies; a
      delivered reply refreshes exactly when it reports success. */
  lemma RefreshOnlyOnSuccess(token: Option<string>, id: string, checked: bool, now: Timestamp,
                             del: Transport<DeleteResponse>, upd: Transport<TaskResponse>)
    ensures del.TransportError? ==>
      !HandleDelete(token, id, del).refresh
      && HandleDelete(token, id, del).notice == ErrorNotice("Failed to delete task")
    ensures del.Delivered? ==> (HandleDelete(token, id, del).refresh <==> del.body.success)
    ensures upd.TransportError? ==>
      !HandleCompletionChange(token, id, checked, now, upd).refresh
      && HandleCompletionChange(token, id, checked, now, upd).notice == ErrorNotice("Failed to update task status")
    ensures upd.Delivered? ==> (HandleCompletionChange(token, id, checked, now, upd).refresh <==> upd.body.success)
  {
  }
}
