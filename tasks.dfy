/**
 * The landlord's to-do list: status toggling with its completion stamp,
 * creation defaults, deletion, the status filter, counters, the progress bar,
 * the overdue badge and the priority colours.
 */
module Tasks {
  import opened Wrappers
  import opened Text
  import opened Calendar
  import opened Sequences

  datatype TaskStatus = Pending | InProgress | Completed

  /** A row of `tasks`. */
  datatype Task = Task(
    id: string,
    landlordId: string,
    title: string,
    description: Option<string>,
    priority: string,
    status: TaskStatus,
    dueDate: Option<Date>,
    propertyId: Option<string>,
    completedAt: Option<Instant>)

  /** The "Add New Task" form; an empty date field is `None`. */
  datatype TaskDraft = TaskDraft(title: string, description: string, priority: string, dueDate: Option<Date>, propertyId: string)

  const BlankDraft := TaskDraft("", "", "medium", None, "")

  /** The filter buttons: "all" or one status. */
  datatype Filter = All | Only(status: TaskStatus)

  // ----------------------------------------------------------------- toggle

  /** The status a click on the check button asks for. */
  function Toggled(s: TaskStatus): (r: TaskStatus)
    ensures r == Completed <==> s != Completed
    ensures r == Pending <==> s == Completed
  {
    if s == Completed then Pending else Completed
  }

  /** Toggling twice returns a pending or completed task to where it was, and takes an in-progress task to pending. */
  lemma ToggleTwice(s: TaskStatus)
    ensures Toggled(Toggled(s)) == if s == InProgress then Pending else s
  {
  }

  /** A row carries a completion time exactly when it is completed. */
  predicate Stamped(t: Task) {
    t.completedAt.Some? <==> t.status == Completed
  }

  // ----------------------------------------------------------------- create

  /** The row `handleCreateTask` inserts: pending, and empty optional fields stored as null. */
  function NewTask(id: string, landlord: string, d: TaskDraft): (t: Task)
    ensures t.status == Pending && t.completedAt == None && Stamped(t)
    ensures t.title == d.title && t.priority == d.priority && t.dueDate == d.dueDate
    ensures t.description.None? <==> d.description == []
    ensures t.propertyId.None? <==> d.propertyId == []
    ensures t.description.Some? ==> t.description.value == d.description
    ensures t.propertyId.Some? ==> t.propertyId.value == d.propertyId
  {
    Task(id, landlord, d.title, NullIfEmpty(d.description), d.priority, Pending, d.dueDate, NullIfEmpty(d.propertyId), None)
  }

  /** The "Add Task" button is enabled only once a title is typed. */
  predicate CanCreate(d: TaskDraft) {
    d.title != []
  }

  // ----------------------------------------------------------- list queries

  /** `filteredTasks`. */
  function FilterTasks(ts: seq<Task>, f: Filter): (r: seq<Task>)
    ensures f == All ==> r == ts
    ensures f.Only? ==> forall t :: t in r <==> t in ts && t.status == f.status
    ensures IsSubsequence(r, ts)
  {
    if ts == [] then []
    else
      var rest := FilterTasks(ts[1..], f);
      if f == All || ts[0].status == f.status then [ts[0]] + rest else rest
  }

  /** The number of tasks with a status. */
  function Count(ts: seq<Task>, s: TaskStatus): (n: nat)
    ensures n <= |ts|
  {
    if ts == [] then 0 else (if ts[0].status == s then 1 else 0) + Count(ts[1..], s)
  }

  /** The counter next to a filter button is the length of the list that filter shows. */
  lemma {:induction false} FilterCount(ts: seq<Task>, s: TaskStatus)
    ensures |FilterTasks(ts, Only(s))| == Count(ts, s)
  {
    if ts != [] {
      FilterCount(ts[1..], s);
    }
  }

  /** `stats`. */
  datatype TaskStats = TaskStats(total: nat, pending: nat, inProgress: nat, completed: nat)

  function Stats(ts: seq<Task>): (r: TaskStats)
    ensures r.total == |ts|
    ensures r.completed <= r.total
  {
    TaskStats(|ts|, Count(ts, Pending), Count(ts, InProgress), Count(ts, Completed))
  }

  /** Every task is counted under exactly one status. */
  lemma {:induction false} StatsPartition(ts: seq<Task>)
    ensures Stats(ts).pending + Stats(ts).inProgress + Stats(ts).completed == Stats(ts).total
  {
    if ts != [] {
      StatsPartition(ts[1..]);
    }
  }

  /** The width of the progress bar, in percent. */
  function Progress(s: TaskStats): (r: real)
    requires s.completed <= s.total
    ensures s.total == 0 ==> r == 0.0
    ensures 0.0 <= r <= 100.0
    ensures r == 100.0 <==> s.total > 0 && s.completed == s.total
    ensures s.total > 0 ==> r * (s.total as real) == (s.completed as real) * 100.0
  {
    if s.total > 0 then (s.completed as real) / (s.total as real) * 100.0 else 0.0
  }

  /**
   * `isOverdue` for a due date (midnight at the start of that day) and the
   * current instant: before now, and not today's date.
   */
  predicate IsOverdue(due: Option<Date>, now: Instant) {
    due.Some? && InstantBefore(Instant(due.value, 0), now) && due.value != now.date
  }

  /** A task is overdue exactly when its due date is an earlier calendar day than today. */
  lemma OverdueIffEarlierDay(due: Option<Date>, now: Instant)
    ensures IsOverdue(due, now) <==> due.Some? && Before(due.value, now.date)
  {
  }

  /** `getPriorityColor`. */
  function PriorityColor(p: string): (r: string)
    ensures r == "#94a3b8" <==> p != "high" && p != "medium" && p != "low"
  {
    if p == "high" then "#ef4444"
    else if p == "medium" then "#f59e0b"
    else if p == "low" then "#10b981"
    else "#94a3b8"
  }

  /** Without the deleted row. */
  function WithoutId(ts: seq<Task>, id: string): (r: seq<Task>)
    ensures forall t :: t in r <==> t in ts && t.id != id
    ensures IsSubsequence(r, ts)
  {
    if ts == [] then []
    else
      var rest := WithoutId(ts[1..], id);
      if ts[0].id == id then rest else [ts[0]] + rest
  }

  // ------------------------------------------------------------------- page

  class TaskBoard {
    var user: Option<string>
    /** The rows, newest first. */
    var tasks: seq<Task>
    var filter: Filter
    var showModal: bool
    var draft: TaskDraft

    /** Every row's completion time agrees with its status. */
    predicate Valid()
      reads this
    {
      forall i :: 0 <= i < |tasks| ==> Stamped(tasks[i])
    }

    constructor (user: Option<string>, tasks: seq<Task>)
      ensures this.user == user && this.tasks == tasks
      ensures filter == All && !showModal && draft == BlankDraft
    {
      this.user := user;
      this.tasks := tasks;
      filter := All;
      showModal := false;
      draft := BlankDraft;
    }

    /** The list on screen. */
    function Visible(): (r: seq<Task>)
      reads this
      ensures forall t :: t in r <==> t in tasks && (filter == All || t.status == filter.status)
      ensures IsSubsequence(r, tasks)
    {
      FilterTasks(tasks, filter)
    }

    /** The "Add Task" button in the header opens the form. */
    method OpenModal()
      modifies this
      ensures showModal
      ensures user == old(user) && tasks == old(tasks) && filter == old(filter) && draft == old(draft)
    {
      showModal := true;
    }

    /** A filter button. */
    method SetFilter(f: Filter)
      modifies this
      ensures filter == f
      ensures user == old(user) && tasks == old(tasks) && showModal == old(showModal) && draft == old(draft)
    {
      filter := f;
    }

    /**
     * `handleToggleStatus`: the update flips the status and sets the completion
     * time to `now` or clears it; the store error is ignored, so a failed update
     * leaves the rows as they were.
     */
    method ToggleStatus(task: Task, updateOk: bool, now: Instant)
      modifies this
      ensures !updateOk ==> unchanged(this)
      ensures |tasks| == |old(tasks)|
      ensures updateOk ==> forall i :: 0 <= i < |tasks| ==>
        tasks[i] == if old(tasks)[i].id == task.id
                    then old(tasks)[i].(status := Toggled(task.status),
                                        completedAt := if Toggled(task.status) == Completed then Some(now) else None)
                    else old(tasks)[i]
      ensures forall i :: 0 <= i < |tasks| && tasks[i].id == task.id ==> Stamped(tasks[i]) || !updateOk
      ensures old(Valid()) ==> Valid()
      ensures user == old(user) && filter == old(filter) && showModal == old(showModal) && draft == old(draft)
    {
      var newStatus := if task.status == Completed then Pending else Completed;
      var completedAt: Option<Instant>;
      if newStatus == Completed {
        completedAt := Some(now);
      } else {
        completedAt := None;
      }
      if !updateOk {
        return;
      }
      var updated: seq<Task> := [];
      var i := 0;
      while i < |tasks|
        invariant 0 <= i <= |tasks|
        invariant |updated| == i
        invariant forall j :: 0 <= j < i ==>
          updated[j] == if tasks[j].id == task.id then tasks[j].(status := newStatus, completedAt := completedAt) else tasks[j]
      {
        var t := tasks[i];
        updated := updated + [if t.id == task.id then t.(status := newStatus, completedAt := completedAt) else t];
        i := i + 1;
      }
      tasks := updated;
    }

    /** `handleCreateTask` behind the "Add Task" button, which is disabled without a title. */
    method CreateTask(insertOk: bool, newId: string)
      modifies this
      ensures !(old(showModal && CanCreate(draft)) && user.Some? && insertOk) ==> unchanged(this)
      ensures old(showModal && CanCreate(draft)) && user.Some? && insertOk ==>
        && tasks == [NewTask(newId, user.value, old(draft))] + old(tasks)
        && !showModal && draft == BlankDraft
        && user == old(user) && filter == old(filter)
      ensures old(Valid()) ==> Valid()
    {
      if !showModal || !CanCreate(draft) || user.None? || !insertOk {
        return;
      }
      tasks := [NewTask(newId, user.value, draft)] + tasks;
      showModal := false;
      draft := BlankDraft;
    }

    /** `handleDeleteTask`; a failed delete leaves the rows as they were. */
    method DeleteTask(id: string, deleteOk: bool)
      modifies this
      ensures tasks == if deleteOk then WithoutId(old(tasks), id) else old(tasks)
      ensures forall t :: t in tasks ==> t.id != id || !deleteOk
      ensures old(Valid()) ==> Valid()
      ensures user == old(user) && filter == old(filter) && showModal == old(showModal) && draft == old(draft)
    {
      if deleteOk {
        tasks := WithoutId(tasks, id);
      }
    }
  }
}
