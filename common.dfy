/** Values shared by the task views: the task record, the body of a PATCH
    request, how a request settles, and what a settled request asks of the
    router. */
module Common {

  datatype Option<+T> = None | Some(value: T)

  /** The three values of a task's status column. */
  datatype Status = NotStarted | InProgress | Completed

  /** A task as the server hands it to a view. Dates are timestamps in
      milliseconds; `null` is `None`. */
  datatype Task = Task(
    id: string,
    title: string,
    status: Status,
    dueDate: Option<int>,
    duration: Option<int>,
    listId: Option<string>)

  /** The JSON body of a task update. Each field is absent (`None`) or
      present; `dueDate` and `duration` may be present with `null`
      (`Some(None)`). */
  datatype Body = Body(
    title: Option<string>,
    status: Option<Status>,
    dueDate: Option<Option<int>>,
    duration: Option<Option<int>>)

  function TitlePatch(title: string): Body { Body(Some(title), None, None, None) }
  function StatusPatch(status: Status): Body { Body(None, Some(status), None, None) }
  function DueDatePatch(dueDate: Option<int>): Body { Body(None, None, Some(dueDate), None) }
  function DurationPatch(duration: Option<int>): Body { Body(None, None, None, Some(duration)) }

  /** How a `fetch` settles: a response whose `ok` is set, a response whose
      `ok` is not set, or a rejected promise (the network failed). */
  datatype Response = Ok | NotOk | Rejected

  /** How a promise that carries no status code settles. */
  datatype Settled<+T> = Fulfilled(value: T) | Failed

  /** The toast that `toast.promise` leaves on screen once the promise settles. */
  datatype Notice = Success | Failure

  /** What a settled request asks of the router: nothing, a refresh now, or
      a refresh after a delay in milliseconds. */
  datatype Refresh = NoRefresh | Now | After(ms: nat)

  /** The delay before refreshing after a task was marked completed, so the
      success toast is seen before the task leaves a filtered view. */
  const CompletedRefreshDelay: nat := 3000

  /** A request in flight: the body sent, and the task the sending render
      had as its props (the callbacks that settle it close over these). */
  datatype Request = Request(body: Body, snapshot: Task)
}
