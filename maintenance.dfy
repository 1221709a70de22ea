/** The maintenance page of frontend/src/pages/Admin/Maintenance.jsx: the
    due-status of a task, the list of tasks shown (overdue or due soon), the
    move of a finished task into the history, and the first-load seeding from
    browser storage. The day count `daysLeft` of a task depends on today's
    date and is an input. */
module Maintenance {
  import opened Common

  const DueSoonDays: int := 7
  const DueSoonKm: int := 500

  /** A maintenance task. */
  datatype Task = Task(
    id: string,
    vehicle: string,
    task: string,
    dueDate: string,
    dueOdometer: int,
    currentOdometer: int)

  /** A finished task with its ISO completion time. */
  datatype HistoryEntry = HistoryEntry(task: Task, completedAt: string)

  datatype DueStatus = Overdue | DueSoon | StatusOk

  function KmLeft(t: Task): int { t.dueOdometer - t.currentOdometer }

  /** `statusOf(t)`, given the whole days left until the due date. */
  function StatusOf(t: Task, daysLeft: int): (s: DueStatus)
    ensures s == Overdue <==> daysLeft < 0 || KmLeft(t) < 0
    ensures s == DueSoon <==> !(daysLeft < 0 || KmLeft(t) < 0) && (daysLeft <= DueSoonDays || KmLeft(t) <= DueSoonKm)
    ensures s == StatusOk <==> daysLeft > DueSoonDays && KmLeft(t) > DueSoonKm
  {
    if daysLeft < 0 || KmLeft(t) < 0 then Overdue
    else if daysLeft <= DueSoonDays || KmLeft(t) <= DueSoonKm then DueSoon
    else StatusOk
  }

  /** `visibleTasks`: those tasks that are overdue or due soon, in order. */
  function VisibleTasks(tasks: seq<Task>, daysLeft: Task -> int): (r: seq<Task>)
    ensures IsSubsequence(r, tasks)
    ensures forall t :: t in r <==> t in tasks && StatusOf(t, daysLeft(t)) != StatusOk
    ensures forall t :: multiset(r)[t] == if StatusOf(t, daysLeft(t)) != StatusOk then multiset(tasks)[t] else 0
  {
    FilterCounts(t => StatusOf(t, daysLeft(t)) != StatusOk, tasks);
    Filter(t => StatusOf(t, daysLeft(t)) != StatusOk, tasks)
  }

  /** A task past its odometer limit is shown whatever its date. */
  lemma OdometerOverdueAlwaysVisible(tasks: seq<Task>, daysLeft: Task -> int, t: Task)
    requires t in tasks && KmLeft(t) < 0
    ensures t in VisibleTasks(tasks, daysLeft) && StatusOf(t, daysLeft(t)) == Overdue
  {
  }

  /** The three demo tasks written on first use. */
  const DemoTasks: seq<Task> := [
    Task("t1", "Fleet Van 01", "Oil Change", "2025-08-10", 15000, 15550),
    Task("t2", "Truck A", "Brake Inspection", "2025-08-22", 32000, 31800),
    Task("t3", "Car B", "Coolant Check", "2025-09-30", 80000, 76000)
  ]

  /** Whatever today's date is, the first demo task is overdue by odometer
      and the second is at least due soon by odometer, so both are shown. */
  lemma DemoTasksShown(daysLeft: Task -> int)
    ensures DemoTasks[0] in VisibleTasks(DemoTasks, daysLeft)
    ensures DemoTasks[1] in VisibleTasks(DemoTasks, daysLeft)
    ensures StatusOf(DemoTasks[0], daysLeft(DemoTasks[0])) == Overdue
  {
  }

  /** `loadLS(key, fallback)`: the stored text parsed, or the fallback when the
      key is absent or empty or the text does not parse. */
  function LoadLS<T>(raw: Option<string>, parse: string -> Parsed<T>, fallback: T): (r: T)
    ensures !Truthy(raw) ==> r == fallback
    ensures Truthy(raw) && parse(raw.value).ParseError? ==> r == fallback
    ensures Truthy(raw) && parse(raw.value).ParsedValue? ==> r == parse(raw.value).value
  {
    if !Truthy(raw) then fallback
    else match parse(raw.value)
      case ParsedValue(v) => v
      case ParseError => fallback
  }

  /** What the stored task list parses to: an array of tasks, or any other
      JSON value (null, a number, an object ...). */
  datatype StoredTasks = TaskArray(items: seq<Task>) | NotAnArray

  /** `saveLS` followed by `loadLS` gives back the saved value, for any
      serialisation the parser inverts. */
  lemma LoadAfterSave<T>(x: T, serialise: T -> string, parse: string -> Parsed<T>, fallback: T)
    requires serialise(x) != "" && parse(serialise(x)) == ParsedValue(x)
    ensures LoadLS(Some(serialise(x)), parse, fallback) == x
  {
  }

  /** The page state, with the two storage entries it writes. */
  class MaintenancePage {
    var tasks: seq<Task>
    var history: seq<HistoryEntry>
    /** The last list this page wrote under `maintenance_tasks`, if any. */
    var savedTasks: Option<seq<Task>>
    /** The last list this page wrote under `maintenance_history`, if any. */
    var savedHistory: Option<seq<HistoryEntry>>

    constructor ()
      ensures tasks == [] && history == [] && savedTasks == None && savedHistory == None
    {
      tasks := [];
      history := [];
      savedTasks := None;
      savedHistory := None;
    }

    /** The first-load effect: tasks come from storage, or the demo tasks are
        seeded and saved when storage holds no array; history comes from
        storage or is empty. */
    method Mount(tasksRaw: Option<string>, historyRaw: Option<string>,
                 parseTasks: string -> Parsed<StoredTasks>, parseHistory: string -> Parsed<seq<HistoryEntry>>)
      modifies this
      ensures var stored := LoadLS(tasksRaw, parseTasks, NotAnArray);
              && (stored.TaskArray? ==> tasks == stored.items && savedTasks == old(savedTasks))
              && (stored.NotAnArray? ==> tasks == DemoTasks && savedTasks == Some(DemoTasks))
      ensures history == LoadLS(historyRaw, parseHistory, [])
      ensures savedHistory == old(savedHistory)
    {
      var stored := LoadLS(tasksRaw, parseTasks, NotAnArray);
      var loaded: seq<Task>;
      if stored.NotAnArray? {
        loaded := DemoTasks;
        savedTasks := Some(loaded);
      } else {
        loaded := stored.items;
      }
      tasks := loaded;
      history := LoadLS(historyRaw, parseHistory, []);
    }

    /** `markDone(task)`: every task with that id leaves the list and one
        history entry is prepended; both lists are saved. */
    method MarkDone(task: Task, completedAt: string)
      modifies this
      ensures tasks == Filter((t: Task) => t.id != task.id, old(tasks))
      ensures forall t :: t in tasks ==> t.id != task.id
      ensures forall t :: t in old(tasks) && t.id != task.id ==> t in tasks
      ensures IsSubsequence(tasks, old(tasks))
      ensures history == [HistoryEntry(task, completedAt)] + old(history)
      ensures savedTasks == Some(tasks) && savedHistory == Some(history)
    {
      var remaining := Filter((t: Task) => t.id != task.id, tasks);
      var newHistory := [HistoryEntry(task, completedAt)] + history;
      tasks := remaining;
      history := newHistory;
      savedTasks := Some(remaining);
      savedHistory := Some(newHistory);
    }
  }

  /** An array already in storage is kept even when it is empty: only a
      missing, unparsable or non-array value seeds the demo tasks. */
  method EmptyStoredListNotReseeded(parseTasks: string -> Parsed<StoredTasks>, parseHistory: string -> Parsed<seq<HistoryEntry>>)
    returns (page: MaintenancePage)
    requires parseTasks("[]") == ParsedValue(TaskArray([]))
    ensures page.tasks == [] && page.savedTasks == None
  {
    page := new MaintenancePage();
    page.Mount(Some("[]"), None, parseTasks, parseHistory);
  }
}
