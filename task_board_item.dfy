/** `TaskBoardItem`: one card of the board view. It keeps a whole
    optimistic copy of the task, writes each edit into it before the server
    answers, and drops the copy for the props' task when the update fails. */
module BoardItem {
  import opened Common

  /** The edits the card's controls make. */
  datatype Edit =
    | EditTitle(title: string)
    | EditDueDate(dueDate: Option<int>)
    | EditDuration(duration: Option<int>)

  /** The edit written into a task (`{ ...prev, field }`): exactly the
      edited field takes the new value; every other field is kept. */
  function Apply(t: Task, e: Edit): (r: Task)
    ensures r.id == t.id && r.status == t.status && r.listId == t.listId
    ensures r.title == (if e.EditTitle? then e.title else t.title)
    ensures r.dueDate == (if e.EditDueDate? then e.dueDate else t.dueDate)
    ensures r.duration == (if e.EditDuration? then e.duration else t.duration)
  {
    match e
    case EditTitle(title) => t.(title := title)
    case EditDueDate(dueDate) => t.(dueDate := dueDate)
    case EditDuration(duration) => t.(duration := duration)
  }

  /** The body the card sends for an edit: the edited field alone. */
  function BodyOf(e: Edit): (b: Body)
    ensures b.status == None
    ensures b.title == (if e.EditTitle? then Some(e.title) else None)
    ensures b.dueDate == (if e.EditDueDate? then Some(e.dueDate) else None)
    ensures b.duration == (if e.EditDuration? then Some(e.duration) else None)
  {
    match e
    case EditTitle(title) => TitlePatch(title)
    case EditDueDate(dueDate) => DueDatePatch(dueDate)
    case EditDuration(duration) => DurationPatch(duration)
  }

  /** A body's present fields written over a task (`{ ...task, ...body }`). */
  function Merge(t: Task, b: Body): Task {
    t.(title := if b.title.Some? then b.title.value else t.title,
       status := if b.status.Some? then b.status.value else t.status,
       dueDate := if b.dueDate.Some? then b.dueDate.value else t.dueDate,
       duration := if b.duration.Some? then b.duration.value else t.duration)
  }

  /** The body sent carries the very value written locally: merging it into
      the task before the edit gives the card's new copy. */
  lemma BodyMatchesLocalEdit(t: Task, e: Edit)
    ensures Merge(t, BodyOf(e)) == Apply(t, e)
  {
  }

  /** What happens to a card, one step at a time: an edit, or an update
      settling. */
  datatype Event = Edited(edit: Edit) | Resolved(outcome: Settled<()>)

  /** The card's copy after a run of events, from a given copy, while the
      props carry `props`. */
  function Replay(props: Task, card: Task, events: seq<Event>): Task
    decreases |events|
  {
    if events == [] then card
    else
      var next := match events[0]
        case Edited(e) => Apply(card, e)
        case Resolved(Fulfilled(_)) => card
        case Resolved(Failed) => props;
      Replay(props, next, events[1..])
  }

  lemma {:induction false} ReplayAppend(props: Task, card: Task, a: seq<Event>, b: seq<Event>)
    ensures Replay(props, card, a + b) == Replay(props, Replay(props, card, a), b)
    decreases |a|
  {
    if a != [] {
      assert (a + b)[0] == a[0];
      assert (a + b)[1..] == a[1..] + b;
      var next := match a[0]
        case Edited(e) => Apply(card, e)
        case Resolved(Fulfilled(_)) => card
        case Resolved(Failed) => props;
      ReplayAppend(props, next, a[1..], b);
    } else {
      assert a + b == b;
    }
  }

  /** A failed update discards every optimistic edit made before it, however
      many: what follows starts again from the props' task. */
  lemma RejectionDiscardsEarlierEdits(props: Task, card: Task, before: seq<Event>, after: seq<Event>)
    ensures Replay(props, card, before + [Resolved(Failed)] + after) == Replay(props, props, after)
  {
    ReplayAppend(props, card, before + [Resolved(Failed)], after);
    ReplayAppend(props, card, before, [Resolved(Failed)]);
  }

  /** Starting from the props' task, the card never departs from it in the
      fields it cannot edit: id, status and list. */
  lemma {:induction false} ReplayKeepsUneditedFields(props: Task, card: Task, events: seq<Event>)
    requires card.id == props.id && card.status == props.status && card.listId == props.listId
    ensures var r := Replay(props, card, events);
      r.id == props.id && r.status == props.status && r.listId == props.listId
    decreases |events|
  {
    if events != [] {
      var next := match events[0]
        case Edited(e) => Apply(card, e)
        case Resolved(Fulfilled(_)) => card
        case Resolved(Failed) => props;
      ReplayKeepsUneditedFields(props, next, events[1..]);
    }
  }

  class TaskBoardItem {
    /** The props' task. */
    var task: Task
    /** The copy the card shows: its title, due date and duration are read
        from here. */
    var optimisticTask: Task

    constructor (task: Task)
      ensures this.task == task && optimisticTask == task
    {
      this.task := task;
      optimisticTask := task;
    }

    /** A re-render with new props keeps the optimistic copy. */
    method ReceiveProps(task: Task)
      modifies this`task
      ensures this.task == task
    {
      this.task := task;
    }

    /** A new title from the editable title. No comparison with the current
        title is made: every change sends a request. */
    method ChangeTitle(title: string) returns (request: Request)
      modifies this`optimisticTask
      ensures optimisticTask == Apply(old(optimisticTask), EditTitle(title))
      ensures request == Request(BodyOf(EditTitle(title)), task)
    {
      optimisticTask := optimisticTask.(title := title);
      request := Request(TitlePatch(title), task);
    }

    /** A new due date from the popover; always sent. */
    method ChangeDueDate(dueDate: Option<int>) returns (request: Request)
      modifies this`optimisticTask
      ensures optimisticTask == Apply(old(optimisticTask), EditDueDate(dueDate))
      ensures request == Request(BodyOf(EditDueDate(dueDate)), task)
    {
      optimisticTask := optimisticTask.(dueDate := dueDate);
      request := Request(DueDatePatch(dueDate), task);
    }

    /** A new duration from the menu; always sent. */
    method ChangeDuration(duration: Option<int>) returns (request: Request)
      modifies this`optimisticTask
      ensures optimisticTask == Apply(old(optimisticTask), EditDuration(duration))
      ensures request == Request(BodyOf(EditDuration(duration)), task)
    {
      optimisticTask := optimisticTask.(duration := duration);
      request := Request(DurationPatch(duration), task);
    }

    /** An update settles: on failure the copy becomes, in every field, the
        task of the render that sent the request; on success it stays. */
    method Settle(request: Request, outcome: Settled<()>) returns (notice: Notice)
      modifies this`optimisticTask
      ensures outcome.Failed? ==> optimisticTask == request.snapshot
      ensures outcome.Fulfilled? ==> optimisticTask == old(optimisticTask)
      ensures notice == (if outcome.Fulfilled? then Success else Failure)
    {
      if outcome.Failed? {
        optimisticTask := request.snapshot;
        notice := Failure;
      } else {
        notice := Success;
      }
    }
  }
}
