/** `TaskListItem`: one row of the list view. It keeps its own copy of the
    task's status and title, updates them before the server answers, and
    puts them back when the server refuses. */
module ListItem {
  import opened Common
  import opened JsString

  /** The status the cycle button moves to:
      not started, in progress, completed, and round again. */
  function NextStatus(s: Status): (r: Status)
    ensures r != s
  {
    if s == NotStarted then InProgress
    else if s == InProgress then Completed
    else NotStarted
  }

  /** Three presses of the cycle button bring any status back, and no fewer do. */
  lemma StatusCycleCloses(s: Status)
    ensures NextStatus(NextStatus(NextStatus(s))) == s
    ensures NextStatus(NextStatus(s)) != s
  {
  }

  /** How the row's labels name a status. */
  function Describe(s: Status): string {
    match s
    case NotStarted => "not started"
    case InProgress => "in progress"
    case Completed => "completed"
  }

  /** The cycle button's accessible label, which the row computes apart
      from the status it moves to. */
  function AriaLabel(s: Status): (r: string)
    ensures |r| > 13 && r[..13] == "Mark task as "
    ensures r[13..] != Describe(s)
  {
    "Mark task as "
      + if s == NotStarted then "in progress"
        else if s == InProgress then "completed"
        else "not started"
  }

  /** The label announces the status the button will set. */
  lemma AriaLabelNamesNextStatus(s: Status)
    ensures AriaLabel(s) == "Mark task as " + Describe(NextStatus(s))
  {
  }

  /** The title a blur of the title input sends, given the input's value and
      the title in the props: nothing for an empty value, else the trimmed
      value when it differs from the props' title. */
  function TitleToSend(value: string, current: string): (r: Option<string>)
    ensures r.Some? <==> value != "" && Trim(value) != current
    ensures r.Some? ==> r.value == Trim(value)
  {
    if value != "" then
      var newTitle := Trim(value);
      if newTitle != current then Some(newTitle) else None
    else None
  }

  /** The empty-value check looks at the value before trimming, so a value
      made only of white space gets through it and sends the empty title. */
  lemma WhiteSpaceTitleSendsEmpty(value: string, current: string)
    requires value != "" && AllWhiteSpace(value) && current != ""
    ensures TitleToSend(value, current) == Some("")
  {
    TrimEmptyIff(value);
  }

  /** Once the props carry the title that was sent, blurring the input again
      with that title, or with the value it came from, sends nothing. */
  lemma TitleSendIdempotent(value: string, current: string)
    requires TitleToSend(value, current).Some?
    ensures TitleToSend(value, TitleToSend(value, current).value) == None
    ensures TitleToSend(TitleToSend(value, current).value, TitleToSend(value, current).value) == None
  {
    TrimIdempotent(value);
  }

  /** The toast a settled update or delete leaves: success only for a
      response whose `ok` is set; a refused response throws and a rejected
      fetch rejects, and both show the error toast. */
  function Notify(response: Response): (n: Notice)
    ensures n == Success <==> response == Ok
  {
    if response == Ok then Success else Failure
  }

  /** The refresh a settled update asks for. */
  function UpdateRefresh(body: Body, response: Response): (r: Refresh)
    ensures r == After(CompletedRefreshDelay) <==> response == Ok && body.status == Some(Completed)
    ensures r == Now <==> response == Ok && body.status != Some(Completed)
    ensures r == NoRefresh <==> response != Ok
  {
    match response
    case Ok => if body.status == Some(Completed) then After(CompletedRefreshDelay) else Now
    case NotOk => NoRefresh
    case Rejected => NoRefresh
  }

  /** The refresh a settled delete asks for: the row goes away on the
      refresh that follows a successful delete. */
  function DeleteRefresh(response: Response): (r: Refresh)
    ensures r == Now <==> response == Ok
    ensures r != Now ==> r == NoRefresh
  {
    if response == Ok then Now else NoRefresh
  }

  function TaskUrl(id: string): string { "/api/task/" + id }

  class TaskListItem {
    /** The props' task; a router refresh re-renders the row with new props
        while the local state below is kept. */
    var task: Task
    var status: Status
    var title: string
    var isEditingTitle: bool
    var isLoadingDelete: bool

    constructor (task: Task)
      ensures this.task == task
      ensures status == task.status && title == task.title
      ensures !isEditingTitle && !isLoadingDelete
    {
      this.task := task;
      status := task.status;
      title := task.title;
      isEditingTitle := false;
      isLoadingDelete := false;
    }

    /** The delete button is on screen; while a delete is in flight a
        spinner stands in its place. */
    predicate ShowsDeleteButton(): (r: bool)
      reads this
      ensures r <==> !isLoadingDelete
    {
      !isLoadingDelete
    }

    /** A re-render with new props keeps every piece of local state. */
    method ReceiveProps(task: Task)
      modifies this`task
      ensures this.task == task
    {
      this.task := task;
    }

    /** The cycle button: the next status is shown at once and a body with
        only that status is sent. */
    method UpdateStatus() returns (request: Request)
      modifies this`status
      ensures status == NextStatus(old(status))
      ensures request == Request(StatusPatch(status), task)
    {
      var newStatus :=
        if status == NotStarted then InProgress
        else if status == InProgress then Completed
        else NotStarted;
      status := newStatus;
      request := Request(StatusPatch(newStatus), task);
    }

    /** A click on the title turns it into an input. */
    method StartEditingTitle()
      modifies this`isEditingTitle
      ensures isEditingTitle
    {
      isEditingTitle := true;
    }

    /** Typing into the title input; the input shows `title`. */
    method EditTitle(value: string)
      modifies this`title
      ensures title == value
    {
      title := value;
    }

    /** Blur of the title input: always leaves edit mode; sends the trimmed
        input when the input is not empty and the trimmed text differs from
        the props' title. The local title keeps what was typed. */
    method UpdateTitle() returns (request: Option<Request>)
      modifies this`isEditingTitle
      ensures !isEditingTitle
      ensures request.Some? <==> TitleToSend(title, task.title).Some?
      ensures request.Some? ==> request.value == Request(TitlePatch(TitleToSend(title, task.title).value), task)
    {
      isEditingTitle := false;
      request := None;
      if title != "" {
        var newTitle := Trim(title);
        if newTitle != task.title {
          request := Some(Request(TitlePatch(newTitle), task));
        }
      }
    }

    /** A pick in the duration menu is sent only when it differs from the
        props' duration. Nothing local changes. */
    method UpdateDuration(duration: Option<int>) returns (request: Option<Request>)
      ensures request.Some? <==> duration != task.duration
      ensures request.Some? ==> request.value == Request(DurationPatch(duration), task)
    {
      request := None;
      if duration != task.duration {
        request := Some(Request(DurationPatch(duration), task));
      }
    }

    /** A pick in the due-date popover is sent only when its timestamp
        differs from the props' due date; two absent dates are equal. */
    method UpdateDueDate(dueDate: Option<int>) returns (request: Option<Request>)
      ensures request.Some? <==> dueDate != task.dueDate
      ensures request.Some? ==> request.value == Request(DueDatePatch(dueDate), task)
    {
      request := None;
      if dueDate != task.dueDate {
        request := Some(Request(DueDatePatch(dueDate), task));
      }
    }

    /** An update settles. A refused response puts back the status and
        title of the task the request was sent from; a success or a
        rejected fetch leaves the local state as it is. */
    method ResolveUpdate(request: Request, response: Response) returns (notice: Notice, refresh: Refresh)
      modifies this`status, this`title
      ensures notice == Notify(response)
      ensures refresh == UpdateRefresh(request.body, response)
      ensures response == NotOk ==> status == request.snapshot.status && title == request.snapshot.title
      ensures response != NotOk ==> status == old(status) && title == old(title)
    {
      match response
      case Ok =>
        notice := Success;
        if request.body.status == Some(Completed) {
          refresh := After(CompletedRefreshDelay);
        } else {
          refresh := Now;
        }
      case NotOk =>
        status := request.snapshot.status;
        title := request.snapshot.title;
        notice, refresh := Failure, NoRefresh;
      case Rejected =>
        notice, refresh := Failure, NoRefresh;
    }

    /** The delete button: the spinner replaces it at once. */
    method DeleteTask() returns (url: string)
      modifies this`isLoadingDelete
      ensures isLoadingDelete && !ShowsDeleteButton()
      ensures url == TaskUrl(task.id)
    {
      isLoadingDelete := true;
      url := TaskUrl(task.id);
    }

    /** A delete settles. Only a refused response brings the button back;
        after a success the row waits for the refresh to remove it, and after
        a rejected fetch the spinner stays. */
    method ResolveDelete(response: Response) returns (notice: Notice, refresh: Refresh)
      modifies this`isLoadingDelete
      ensures notice == Notify(response) && refresh == DeleteRefresh(response)
      ensures isLoadingDelete == (old(isLoadingDelete) && response != NotOk)
    {
      if response == Ok {
        notice, refresh := Success, Now;
      } else if response == NotOk {
        isLoadingDelete := false;
        notice, refresh := Failure, NoRefresh;
      } else {
        notice, refresh := Failure, NoRefresh;
      }
    }
  }
}
