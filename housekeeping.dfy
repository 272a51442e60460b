/** The housekeeping board: the task tabs, the status parameter sent to
    the backend, which tasks offer "Mark Clean", the status badge and the
    completion handler. */
module Housekeeping {
  import opened Seqs

  datatype TaskStatus = TaskPending | InProgress | TaskCompleted

  datatype HousekeepingTask = HousekeepingTask(id: string, room_id: string, status: TaskStatus)

  /** The tabs; the page opens on `PendingTab`. */
  datatype TaskFilter = AllTab | PendingTab | CompletedTab

  function StatusText(s: TaskStatus): string {
    match s
    case TaskPending => "pending"
    case InProgress => "in_progress"
    case TaskCompleted => "completed"
  }

  /** The tab's `status` query parameter: none for 'all', else the tab name. */
  function StatusParam(f: TaskFilter): (r: Option<string>)
    ensures r.None? <==> f == AllTab
    ensures f == PendingTab ==> r == Some(StatusText(TaskPending))
    ensures f == CompletedTab ==> r == Some(StatusText(TaskCompleted))
  {
    match f
    case AllTab => None
    case PendingTab => Some("pending")
    case CompletedTab => Some("completed")
  }

  /** Whether a task is listed under a tab: every task under 'all', open
      (pending or in progress) tasks under 'pending', finished ones under 'completed'. */
  predicate Shown(f: TaskFilter, t: HousekeepingTask) {
    match f
    case AllTab => true
    case PendingTab => t.status == TaskPending || t.status == InProgress
    case CompletedTab => t.status == TaskCompleted
  }

  function FilteredTasks(tasks: seq<HousekeepingTask>, f: TaskFilter): (r: seq<HousekeepingTask>)
    ensures forall i :: 0 <= i < |r| ==> r[i] in tasks && Shown(f, r[i])
    ensures forall i :: 0 <= i < |tasks| && Shown(f, tasks[i]) ==> tasks[i] in r
  {
    Filter(tasks, (t: HousekeepingTask) => Shown(f, t))
  }

  /** The 'pending' and 'completed' tabs split the 'all' tab between them. */
  lemma {:induction false} TabsSplitAll(tasks: seq<HousekeepingTask>)
    ensures FilteredTasks(tasks, AllTab) == tasks
    ensures |FilteredTasks(tasks, PendingTab)| + |FilteredTasks(tasks, CompletedTab)| == |tasks|
  {
    FilterAll(tasks, (t: HousekeepingTask) => Shown(AllTab, t));
    FilterLength(tasks, (t: HousekeepingTask) => Shown(PendingTab, t));
    FilterLength(tasks, (t: HousekeepingTask) => Shown(CompletedTab, t));
    CountComplement(tasks, (t: HousekeepingTask) => Shown(PendingTab, t), (t: HousekeepingTask) => Shown(CompletedTab, t));
  }

  /** "Mark Clean" is offered exactly for the tasks the 'pending' tab lists. */
  predicate OffersMarkClean(t: HousekeepingTask) {
    t.status == TaskPending || t.status == InProgress
  }

  lemma MarkCleanOnPendingTab(t: HousekeepingTask)
    ensures OffersMarkClean(t) <==> Shown(PendingTab, t)
    ensures OffersMarkClean(t) <==> !Shown(CompletedTab, t)
  {
  }

  datatype Badge = Badge(style: string, text: string)

  const PendingStyle := "bg-yellow-100 text-yellow-800 dark:bg-yellow-900/30 dark:text-yellow-400"
  const InProgressStyle := "bg-blue-100 text-blue-800 dark:bg-blue-900/30 dark:text-blue-400"
  const CompletedStyle := "bg-green-100 text-green-800 dark:bg-green-900/30 dark:text-green-400"

  /** The badge for a status as received (any text): the known statuses
      get their own style and label; anything else gets the pending style
      and shows the raw text. */
  function StatusBadge(status: string): (b: Badge)
    ensures status == "pending" ==> b == Badge(PendingStyle, "Pending")
    ensures status == "in_progress" ==> b == Badge(InProgressStyle, "In Progress")
    ensures status == "completed" ==> b == Badge(CompletedStyle, "Completed")
    ensures status !in {"pending", "in_progress", "completed"} ==> b == Badge(PendingStyle, status)
  {
    if status == "pending" then Badge(PendingStyle, "Pending")
    else if status == "in_progress" then Badge(InProgressStyle, "In Progress")
    else if status == "completed" then Badge(CompletedStyle, "Completed")
    else Badge(PendingStyle, status)
  }

  /** Every known status gets a label different from its raw text and a
      style of its own. */
  lemma KnownStatusesDistinct(s1: TaskStatus, s2: TaskStatus)
    ensures StatusBadge(StatusText(s1)).text != StatusText(s1)
    ensures s1 != s2 ==> StatusBadge(StatusText(s1)).style != StatusBadge(StatusText(s2)).style
  {
  }

  class HousekeepingPage {
    var tasks: seq<HousekeepingTask>
    var filter: TaskFilter
    var completingTaskId: Option<string>

    constructor ()
      ensures tasks == [] && filter == PendingTab && completingTaskId == None
    {
      tasks, filter, completingTaskId := [], PendingTab, None;
    }

    /** `handleComplete`: whatever the request's result, the busy mark ends
        cleared and the list is reloaded. The mark held while the request
        runs is not observable in this sequential model. `reloaded` is the
        list the reload returns (None when it fails). */
    method HandleComplete(taskId: string, reloaded: Option<seq<HousekeepingTask>>)
      modifies this`completingTaskId, this`tasks
      ensures completingTaskId == None
      ensures tasks == reloaded.GetOr(old(tasks))
    {
      completingTaskId := None;
      if reloaded.Some? {
        tasks := reloaded.value;
      }
    }
  }
}
