/** The records exchanged between the components and the REST service
    (src/types/task.types.ts). Dates are integer millisecond timestamps; the
    `Date | string` unions of the source collapse to that one type. */
module Types {
  import opened Wrappers

  /** Milliseconds since the epoch. */
  type Timestamp = int

  /** A user as the server embeds it in a task. `_id` is the field `id`. A
      missing name part reads as "" wherever the source uses it. */
  datatype User = User(id: string, firstName: string, lastName: string, email: string)

  /** `assignedTo: string | User`: a bare id, or the populated user record. */
  datatype Assignee = ById(userId: string) | Embedded(user: User)

  datatype Task = Task(
    id: string,
    name: string,
    description: Option<string>,
    startDate: Timestamp,
    endDate: Timestamp,
    completionDate: Option<Timestamp>,
    isActive: bool,
    isCompleted: bool,
    assignedTo: Assignee,
    createdBy: Assignee,
    createdAt: Timestamp,
    updatedAt: Timestamp)

  datatype CreateTaskRequest = CreateTaskRequest(
    name: string,
    description: Option<string>,
    startDate: Timestamp,
    endDate: Timestamp,
    assignedTo: string,
    isActive: Option<bool>)

  datatype UpdateTaskRequest = UpdateTaskRequest(
    name: Option<string>,
    description: Option<string>,
    startDate: Option<Timestamp>,
    endDate: Option<Timestamp>,
    assignedTo: Option<string>,
    isActive: Option<bool>)

  datatype CompletionRequest = CompletionRequest(isCompleted: bool, completionDate: Option<Timestamp>)

  /** A single-task reply. `data` is `None` for the empty placeholder object
      the service substitutes on failure. */
  datatype TaskResponse = TaskResponse(success: bool, message: Option<string>, data: Option<Task>)

  /** The list reply; the pagination block is not modelled. */
  datatype TasksResponse = TasksResponse(success: bool, count: int, data: seq<Task>)

  datatype DeleteResponse = DeleteResponse(success: bool, message: Option<string>)

  /** The query filter. Every field is optional; absence means "no constraint". */
  datatype TaskFilter = TaskFilter(
    isCompleted: Option<bool>,
    isActive: Option<bool>,
    startDate: Option<Timestamp>,
    endDate: Option<Timestamp>,
    assignedTo: Option<string>,
    sort: Option<string>,
    page: Option<int>,
    limit: Option<int>)

  /** The filter object `{}`. */
  const EmptyFilter := TaskFilter(None, None, None, None, None, None, None, None)

  /** The embedding host's `userRole` prop. */
  datatype Role = Admin | RegularUser

  /** A transient antd message: `message.success` or `message.error`. */
  datatype Notice = SuccessNotice(text: string) | ErrorNotice(text: string)

  /** `message || fallback`: the server's message unless it is missing or empty. */
  function MessageOr(message: Option<string>, fallback: string): (text: string)
    ensures Truthy(message) ==> text == message.value
    ensures !Truthy(message) ==> text == fallback
  {
    if Truthy(message) then message.value else fallback
  }

  /** `String(b)` for a boolean. */
  function BoolText(b: bool): string {
    if b then "true" else "false"
  }

  /** The body sent by `updateTask` when the form hands it a full create payload:
      structurally every field is present. */
  function AsUpdate(c: CreateTaskRequest): (u: UpdateTaskRequest)
    ensures u.name == Some(c.name) && u.assignedTo == Some(c.assignedTo)
    ensures u.startDate == Some(c.startDate) && u.endDate == Some(c.endDate)
    ensures u.description == c.description && u.isActive == c.isActive
  {
    UpdateTaskRequest(Some(c.name), c.description, Some(c.startDate), Some(c.endDate),
                      Some(c.assignedTo), c.isActive)
  }
}
