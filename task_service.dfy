/** The task service: tasks, their checklist, completion and the two derived
    analyses (convergence and staleness). A call that changes the store is a
    function from the store before it to a `Step` (the store after the commit,
    and what the call returned); every failing call raises before it changes
    anything, so an error step carries the store unchanged. The wall clock is
    the parameter `now`. */
module TaskService {
  import opened Domain
  import opened Store
  import opened Updates
  import Query

  /** Timestamps are microseconds; `timedelta.days` counts whole days of this length. */
  const MicrosPerDay: int := 86_400_000_000

  // ── Lookups ─────────────────────────────────────────────────────────────

  function TaskOr404(db: Db, id: int): (r: Result<Task>)
    ensures r.Ok? <==> id in db.tasks
    ensures r.Ok? ==> r.value == db.tasks[id]
    ensures r.Err? ==> r.error == NotFound
  {
    if id in db.tasks then Ok(db.tasks[id]) else Err(NotFound)
  }

  /** A checklist item is found only under the task that owns it. */
  function ItemOr404(db: Db, taskId: int, itemId: int): (r: Result<ChecklistItem>)
    ensures r.Ok? <==> itemId in db.items && db.items[itemId].taskId == taskId
    ensures r.Ok? ==> r.value == db.items[itemId] && r.value.taskId == taskId
    ensures r.Err? ==> r.error == NotFound
  {
    if itemId in db.items && db.items[itemId].taskId == taskId then Ok(db.items[itemId]) else Err(NotFound)
  }

  // ── Task CRUD ───────────────────────────────────────────────────────────

  /** `if status:` … `if parent_id is not None:` — the enum filters are never
      empty strings, so each is applied exactly when it is given. */
  predicate MatchesFilter(t: Task, f: TaskFilter): (r: bool)
    ensures f == TaskFilter(None, None, None, None) ==> r
    ensures r && f.parentId.Some? ==> t.parentId.Some?
  {
    && (f.status.None? || t.status == f.status.value)
    && (f.taskType.None? || t.taskType == f.taskType.value)
    && (f.priority.None? || t.priority == f.priority.value)
    && (f.parentId.None? || t.parentId == Some(f.parentId.value))
  }

  function Matching(f: TaskFilter): Task -> bool {
    t => MatchesFilter(t, f)
  }

  /** Sort key for `created_at DESC`. */
  function NewestTaskFirst(t: Task): int {
    -t.createdAt
  }

  method GetTasks(db: Db, f: TaskFilter) returns (rows: seq<Task>)
    requires Valid(db)
    ensures Query.Lists(db.tasks, TaskId, Matching(f), rows)
    ensures Query.Ascending(rows, NewestTaskFirst)
  {
    rows := Query.SelectSorted(db.tasks, TaskId, Matching(f), NewestTaskFirst);
  }

  /** Where an extracted task came from: its parent and the checklist item's text. */
  datatype Origin = Origin(parentTaskId: int, parentTaskTitle: string, checklistItemText: string)

  datatype Detail = Detail(task: Task, origin: Option<Origin>)

  /** The origin is reported only when the origin item and the task owning it
      both still exist; otherwise it is left out, which is not an error. */
  function GetTaskDetail(db: Db, id: int): (r: Result<Detail>)
    ensures r.Err? <==> id !in db.tasks
    ensures r.Ok? ==> r.value.task == db.tasks[id]
    ensures r.Ok? ==> (r.value.origin.Some? <==>
      && Truthy(db.tasks[id].originItemId)
      && db.tasks[id].originItemId.value in db.items
      && db.items[db.tasks[id].originItemId.value].taskId in db.tasks)
    ensures r.Ok? && r.value.origin.Some? ==>
      var item := db.items[db.tasks[id].originItemId.value];
      r.value.origin.value == Origin(db.tasks[item.taskId].id, db.tasks[item.taskId].title, item.text)
  {
    if id !in db.tasks then Err(NotFound)
    else
      var t := db.tasks[id];
      var origin :=
        if Truthy(t.originItemId) && t.originItemId.value in db.items
           && db.items[t.originItemId.value].taskId in db.tasks
        then
          var item := db.items[t.originItemId.value];
          Some(Origin(db.tasks[item.taskId].id, db.tasks[item.taskId].title, item.text))
        else None;
      Ok(Detail(t, origin))
  }

  /** A new row built from a create request: status todo, no origin, both
      timestamps at `now` (the columns' defaults). */
  function NewTask(id: int, req: TaskCreate, parentId: Option<int>, now: Timestamp): (r: Task)
    ensures r.id == id && r.parentId == parentId && r.title == req.title && r.priority == req.priority
    ensures r.status == Todo && r.originItemId.None?
    ensures r.createdAt == now && r.lastUpdatedAt == Some(now)
  {
    Task(id, req.title, req.taskType, req.category, req.priority, Todo, req.dueDate, parentId,
         req.doneCriteria, req.decisionCriteria, req.reversible, req.explorationLimit,
         None, Some(now), now)
  }

  /** Inserts `t` under the next task id. */
  function AddTask(db: Db, t: Task): (r: Db)
    ensures r.tasks.Keys == db.tasks.Keys + {db.nextTaskId} && r.tasks[db.nextTaskId] == t
    ensures forall k :: k in db.tasks && k != db.nextTaskId ==> r.tasks[k] == db.tasks[k]
    ensures r.items == db.items && r.logs == db.logs && r.captures == db.captures
    ensures r.nextTaskId > db.nextTaskId
  {
    db.(tasks := db.tasks[db.nextTaskId := t], nextTaskId := db.nextTaskId + 1)
  }

  /** A parent id that is sent must name an existing task. */
  predicate ParentGuard(db: Db, parentId: Option<int>): (r: bool)
    ensures r ==> ParentGuardAsWritten(db, parentId)
    ensures r && parentId.Some? ==> parentId.value in db.tasks
  {
    parentId.None? || parentId.value in db.tasks
  }

  /** The guard as the backend writes it: `if data.parent_id:` is false for 0,
      so a parent id of 0 is never looked up. */
  predicate ParentGuardAsWritten(db: Db, parentId: Option<int>): (r: bool)
    ensures parentId == Some(0) ==> r
    ensures parentId.Some? && parentId.value != 0 ==> (r <==> parentId.value in db.tasks)
  {
    !Truthy(parentId) || parentId.value in db.tasks
  }

  function CreateTask(db: Db, req: TaskCreate, now: Timestamp): (s: Step<Task>)
    ensures s.result.Ok? <==> ParentGuard(db, req.parentId)
    ensures s.result.Err? ==> s.db == db && s.result.error == NotFound
  {
    if !ParentGuard(db, req.parentId) then Step(db, Err(NotFound))
    else
      var t := NewTask(db.nextTaskId, req, req.parentId, now);
      Step(AddTask(db, t), Ok(t))
  }

  /** `create_task` as written, with the truthiness guard. */
  function CreateTaskAsWritten(db: Db, req: TaskCreate, now: Timestamp): (s: Step<Task>)
    ensures s.result.Ok? <==> ParentGuardAsWritten(db, req.parentId)
    ensures s.result.Err? ==> s.db == db && s.result.error == NotFound
  {
    if !ParentGuardAsWritten(db, req.parentId) then Step(db, Err(NotFound))
    else
      var t := NewTask(db.nextTaskId, req, req.parentId, now);
      Step(AddTask(db, t), Ok(t))
  }

  /** The sent fields are assigned in turn, unless one of them sets the status
      to done, which only completion may do; `last_updated_at` is touched. */
  function UpdateTask(db: Db, id: int, req: TaskUpdate, now: Timestamp): (s: Step<Task>)
    ensures s.result.Err? ==> s.db == db
    ensures s.result.Err? ==> s.result.error == NotFound || s.result.error == InvalidTransition
    ensures (s.result == Err(NotFound) && s.db == db) <==> id !in db.tasks
  {
    if id !in db.tasks then Step(db, Err(NotFound))
    else
      var updates := DumpTask(req);
      if SetStatus(Done) in updates then Step(db, Err(InvalidTransition))
      else
        var t := Fold(db.tasks[id], updates, AssignTask).(lastUpdatedAt := Some(now));
        Step(db.(tasks := db.tasks[id := t]), Ok(t))
  }

  /** What the cascade of `delete_task` does to another task: a child loses its
      parent, a task extracted from one of the deleted task's checklist items
      loses its origin, and either bulk update touches `last_updated_at` (the
      column's on-update default). */
  function Detached(t: Task, id: int, owned: set<int>, now: Timestamp): (r: Task)
    ensures r.parentId != Some(id)
    ensures r.originItemId.Some? ==> r.originItemId.value !in owned
    ensures r.parentId.Some? ==> r.parentId == t.parentId
    ensures r.originItemId.Some? ==> r.originItemId == t.originItemId
    ensures r.(parentId := t.parentId, originItemId := t.originItemId, lastUpdatedAt := t.lastUpdatedAt) == t
  {
    var child := t.parentId == Some(id);
    var linked := t.originItemId.Some? && t.originItemId.value in owned;
    t.(parentId := if child then None else t.parentId,
       originItemId := if linked then None else t.originItemId,
       lastUpdatedAt := if child || linked then Some(now) else t.lastUpdatedAt)
  }

  function Unlinked(c: CaptureItem, id: int): (r: CaptureItem)
    ensures r.relatedTaskId != Some(id)
    ensures r.relatedTaskId.Some? ==> r.relatedTaskId == c.relatedTaskId
    ensures r.(relatedTaskId := c.relatedTaskId) == c
  {
    if c.relatedTaskId == Some(id) then c.(relatedTaskId := None) else c
  }

  function DeleteTask(db: Db, id: int, now: Timestamp): (s: Step<()>)
    ensures s.result.Err? <==> id !in db.tasks
    ensures s.result.Err? ==> s.db == db && s.result.error == NotFound
  {
    if id !in db.tasks then Step(db, Err(NotFound))
    else
      var owned := ItemsOf(db, id);
      var db' := db.(
        tasks := map k | k in db.tasks && k != id :: Detached(db.tasks[k], id, owned, now),
        items := map k | k in db.items && db.items[k].taskId != id :: db.items[k],
        logs := map k | k in db.logs && db.logs[k].taskId != id :: db.logs[k],
        captures := map k | k in db.captures :: Unlinked(db.captures[k], id));
      Step(db', Ok(()))
  }

  // ── Children ────────────────────────────────────────────────────────────

  function ChildOf(id: int): Task -> bool {
    (t: Task) => t.parentId == Some(id)
  }

  method GetChildren(db: Db, id: int) returns (r: Result<seq<Task>>)
    requires Valid(db)
    ensures r.Err? <==> id !in db.tasks
    ensures r.Ok? ==> Query.Lists(db.tasks, TaskId, ChildOf(id), r.value)
  {
    if id !in db.tasks {
      return Err(NotFound);
    }
    var rows := Query.Select(db.tasks, TaskId, ChildOf(id));
    return Ok(rows);
  }

  /** `create_task` with the parent forced to `id`, which must exist. */
  function CreateChild(db: Db, id: int, req: TaskCreate, now: Timestamp): (s: Step<Task>)
    ensures s.result.Ok? <==> id in db.tasks
    ensures s.result.Err? ==> s.db == db && s.result.error == NotFound
  {
    if id !in db.tasks then Step(db, Err(NotFound))
    else
      var t := NewTask(db.nextTaskId, req, Some(id), now);
      Step(AddTask(db, t), Ok(t))
  }

  // ── Completion ──────────────────────────────────────────────────────────

  /** Ids of the checklist items of `id` that block completion: not done and
      not extracted into a task of their own. */
  function Blocking(db: Db, id: int): (s: set<int>)
    ensures s <= ItemsOf(db, id)
    ensures forall k :: k in s <==> k in db.items && db.items[k].taskId == id
                                     && !db.items[k].isDone && db.items[k].extractedTaskId.None?
  {
    set k | k in db.items && db.items[k].taskId == id && !db.items[k].isDone && db.items[k].extractedTaskId.None?
  }

  /** Completion is refused while an item blocks it; otherwise the task is
      done and one more log is appended (a task already done may be completed
      again, and gets another log). */
  function CompleteTask(db: Db, id: int, note: Option<string>, now: Timestamp): (s: Step<CompletionLog>)
    ensures s.result.Err? ==> s.db == db
    ensures (s.result == Err(NotFound) && s.db == db) <==> id !in db.tasks
  {
    if id !in db.tasks then Step(db, Err(NotFound))
    else
      var blocking := Blocking(db, id);
      if blocking != {} then Step(db, Err(ChecklistIncomplete(|blocking|)))
      else
        var log := CompletionLog(db.nextLogId, id, now, note);
        var db' := db.(
          tasks := db.tasks[id := db.tasks[id].(status := Done, lastUpdatedAt := Some(now))],
          logs := db.logs[db.nextLogId := log],
          nextLogId := db.nextLogId + 1);
        Step(db', Ok(log))
  }

  function LogOf(id: int): CompletionLog -> bool {
    (l: CompletionLog) => l.taskId == id
  }

  /** Sort key for `completed_at DESC`. */
  function NewestLogFirst(l: CompletionLog): int {
    -l.completedAt
  }

  method GetCompletionLogs(db: Db, id: int) returns (r: Result<seq<CompletionLog>>)
    requires Valid(db)
    ensures r.Err? <==> id !in db.tasks
    ensures r.Ok? ==> Query.Lists(db.logs, LogId, LogOf(id), r.value)
    ensures r.Ok? ==> Query.Ascending(r.value, NewestLogFirst)
  {
    if id !in db.tasks {
      return Err(NotFound);
    }
    var rows := Query.SelectSorted(db.logs, LogId, LogOf(id), NewestLogFirst);
    return Ok(rows);
  }

  // ── Convergence ─────────────────────────────────────────────────────────

  /** At most this many options may be explored before a decision converges. */
  const StructureCap: nat := 3

  datatype Convergence = Convergence(
    taskId: int,
    explorationLimit: Option<int>,
    explorationUsed: nat,
    explorationRemaining: Option<int>,
    reversible: Option<bool>,
    decisionCriteria: Option<string>,
    isConvergeable: bool,
    optionsWithinLimit: bool,
    structureSimplified: bool,
    reversibleConfirmed: bool)

  function GetConvergence(db: Db, id: int): (r: Result<Convergence>)
    ensures r.Err? <==> id !in db.tasks
    ensures r.Ok? ==> r.value.taskId == id && r.value.explorationUsed == |ChildrenOf(db, id)|
  {
    if id !in db.tasks then Err(NotFound)
    else
      var t := db.tasks[id];
      var used := |ChildrenOf(db, id)|;
      var remaining := if t.explorationLimit.Some? then Some(t.explorationLimit.value - used) else None;
      var withinLimit := if t.explorationLimit.Some? then used <= t.explorationLimit.value else true;
      var simplified := used <= StructureCap;
      var confirmed := t.reversible == Some(true);
      Ok(Convergence(id, t.explorationLimit, used, remaining, t.reversible, t.decisionCriteria,
                     withinLimit && simplified && confirmed, withinLimit, simplified, confirmed))
  }

  // ── Staleness ───────────────────────────────────────────────────────────

  /** Days without an update after which a task is stale, by priority. */
  function Threshold(p: Priority): (r: int)
    ensures 7 <= r <= 21
    ensures r == 7 <==> p == Must
    ensures p == Should ==> r == 21
  {
    match p
    case Must => 7
    case Should => 21
  }

  /** `(now - last).days`: whole days elapsed, rounded down, also when `last`
      lies after `now`. */
  function DaysBetween(last: Timestamp, now: Timestamp): (d: int)
    ensures d * MicrosPerDay <= now - last < (d + 1) * MicrosPerDay
  {
    (now - last) / MicrosPerDay
  }

  /** At least `n` whole days have passed exactly when `n` days' worth of
      microseconds have. */
  lemma DaysAtLeast(last: Timestamp, now: Timestamp, n: int)
    ensures DaysBetween(last, now) >= n <==> now - last >= n * MicrosPerDay
  {
    var d := DaysBetween(last, now);
    if d >= n {
      assert (d - n) * MicrosPerDay >= 0;
    } else {
      assert (n - d - 1) * MicrosPerDay >= 0;
    }
  }

  /** The rows the staleness query scans: active statuses and the priority filter. */
  predicate StaleScanned(t: Task, priority: Option<Priority>) {
    && (t.status == Todo || t.status == Doing || t.status == NeedsRedefine)
    && (priority.None? || t.priority == priority.value)
  }

  function Scanned(priority: Option<Priority>): Task -> bool {
    t => StaleScanned(t, priority)
  }

  predicate IsStale(t: Task, priority: Option<Priority>, now: Timestamp): (r: bool)
    ensures r <==>
      && StaleScanned(t, priority)
      && t.lastUpdatedAt.Some?
      && now - t.lastUpdatedAt.value >= Threshold(t.priority) * MicrosPerDay
  {
    DaysAtLeast(t.lastUpdatedAt.GetOr(now), now, Threshold(t.priority));
    && StaleScanned(t, priority)
    && t.lastUpdatedAt.Some?
    && DaysBetween(t.lastUpdatedAt.value, now) >= Threshold(t.priority)
  }

  datatype StaleRow = StaleRow(task: Task, staleDays: int, thresholdDays: int)

  /** Every stale task exactly once, with its day count and threshold. */
  method GetStaleTasks(db: Db, priority: Option<Priority>, now: Timestamp) returns (rows: seq<StaleRow>)
    requires Valid(db)
    ensures forall r :: r in rows ==>
      && r.task.id in db.tasks && db.tasks[r.task.id] == r.task
      && IsStale(r.task, priority, now)
      && r.staleDays == DaysBetween(r.task.lastUpdatedAt.value, now)
      && r.thresholdDays == Threshold(r.task.priority)
    ensures forall k :: k in db.tasks && IsStale(db.tasks[k], priority, now) ==>
      exists r :: r in rows && r.task == db.tasks[k]
    ensures forall i, j :: 0 <= i < j < |rows| ==> rows[i].task.id != rows[j].task.id
  {
    var scanned := Query.Select(db.tasks, TaskId, Scanned(priority));
    rows := [];
    for i := 0 to |scanned|
      invariant forall r :: r in rows ==>
        && r.task in scanned[..i]
        && r.task.id in db.tasks && db.tasks[r.task.id] == r.task
        && IsStale(r.task, priority, now)
        && r.staleDays == DaysBetween(r.task.lastUpdatedAt.value, now)
        && r.thresholdDays == Threshold(r.task.priority)
      invariant forall j :: 0 <= j < i && IsStale(scanned[j], priority, now) ==>
        exists r :: r in rows && r.task == scanned[j]
      invariant forall a, b :: 0 <= a < b < |rows| ==> rows[a].task.id != rows[b].task.id
    {
      var t := scanned[i];
      assert scanned[..i + 1] == scanned[..i] + [t];
      assert Scanned(priority)(t) && db.tasks[TaskId(t)] == t;
      var threshold := Threshold(t.priority);
      if t.lastUpdatedAt.Some? {
        var days := DaysBetween(t.lastUpdatedAt.value, now);
        if days >= threshold {
          forall r | r in rows ensures r.task.id != t.id {
            var j :| 0 <= j < i && scanned[j] == r.task;
            assert scanned[j] != t;
            assert db.tasks[TaskId(scanned[j])] == scanned[j] && db.tasks[TaskId(t)] == t;
          }
          rows := rows + [StaleRow(t, days, threshold)];
        }
      }
    }
  }

  // ── Checklist ───────────────────────────────────────────────────────────

  function ItemOf(id: int): ChecklistItem -> bool {
    (i: ChecklistItem) => i.taskId == id
  }

  function ItemOrder(i: ChecklistItem): int {
    i.orderNo
  }

  method GetChecklist(db: Db, id: int) returns (r: Result<seq<ChecklistItem>>)
    requires Valid(db)
    ensures r.Err? <==> id !in db.tasks
    ensures r.Ok? ==> Query.Lists(db.items, ItemId, ItemOf(id), r.value)
    ensures r.Ok? ==> Query.Ascending(r.value, ItemOrder)
  {
    if id !in db.tasks {
      return Err(NotFound);
    }
    var rows := Query.SelectSorted(db.items, ItemId, ItemOf(id), ItemOrder);
    return Ok(rows);
  }

  /** An omitted position is the task's item count plus one; a given one is kept. */
  function NextOrderNo(db: Db, id: int, orderNo: Option<int>): (r: int)
    ensures orderNo.None? ==> r >= 1 && r > |ItemsOf(db, id)|
    ensures orderNo.Some? ==> r == orderNo.value
  {
    if orderNo.None? then |ItemsOf(db, id)| + 1 else orderNo.value
  }

  function CreateChecklistItem(db: Db, id: int, req: ItemCreate): (s: Step<ChecklistItem>)
    ensures s.result.Ok? <==> id in db.tasks
    ensures s.result.Err? ==> s.db == db && s.result.error == NotFound
  {
    if id !in db.tasks then Step(db, Err(NotFound))
    else
      var item := ChecklistItem(db.nextItemId, id, req.text, false, NextOrderNo(db, id, req.orderNo), None);
      Step(db.(items := db.items[db.nextItemId := item], nextItemId := db.nextItemId + 1), Ok(item))
  }

  function UpdateChecklistItem(db: Db, id: int, itemId: int, req: ItemUpdate): (s: Step<ChecklistItem>)
    ensures s.result.Ok? <==> itemId in db.items && db.items[itemId].taskId == id
    ensures s.result.Err? ==> s.db == db && s.result.error == NotFound
  {
    if !(itemId in db.items && db.items[itemId].taskId == id) then Step(db, Err(NotFound))
    else
      var item := Fold(db.items[itemId], DumpItem(req), AssignItem);
      Step(db.(items := db.items[itemId := item]), Ok(item))
  }

  datatype Extracted = Extracted(extractedTask: Task, checklistItem: ChecklistItem)

  /** The child task that an extraction creates under `parent` from `item`. */
  function ExtractedTask(id: int, parent: Task, item: ChecklistItem, req: ExtractRequest, now: Timestamp): (r: Task)
    ensures r.id == id && r.parentId == Some(parent.id) && r.originItemId == Some(item.id) && r.status == Todo
    ensures r.title == item.text || (req.title.Some? && r.title == req.title.value)
    ensures r.title != "" ==> r.doneCriteria != ""
  {
    var title := OrElse(req.title, item.text);
    Task(id, title, req.taskType, None, req.priority.GetOr(parent.priority), Todo, req.dueDate,
         Some(parent.id), OrElse(req.doneCriteria, title), None, None, None,
         Some(item.id), Some(now), now)
  }

  /** Turns a checklist item into a child task, once: the new task points back
      at the item, and the item is marked done and points at the new task. */
  function ExtractChecklistItem(db: Db, id: int, itemId: int, req: ExtractRequest, now: Timestamp): (s: Step<Extracted>)
    ensures s.result.Err? ==> s.db == db
  {
    if id !in db.tasks then Step(db, Err(NotFound))
    else if !(itemId in db.items && db.items[itemId].taskId == id) then Step(db, Err(NotFound))
    else if Truthy(db.items[itemId].extractedTaskId) then Step(db, Err(AlreadyExtracted))
    else
      var t := ExtractedTask(db.nextTaskId, db.tasks[id], db.items[itemId], req, now);
      var item := db.items[itemId].(extractedTaskId := Some(t.id), isDone := true);
      var db' := AddTask(db, t).(items := db.items[itemId := item]);
      Step(db', Ok(Extracted(t, item)))
  }
}
