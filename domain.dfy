/** Entities, enums and request shapes of the task-workflow backend.
    Ids are plain integers; dates are day numbers (proleptic ordinals) and
    timestamps are integer microseconds, the resolution of the backend's
    datetime values. */
module Domain {

  /** A nullable column or an optional request value. */
  datatype Option<+T> = None | Some(value: T) {
    function GetOr(default: T): T {
      if Some? then value else default
    }
  }

  /** One field of a partial-update request: left out of the request (so not
      part of the dumped update), or sent with a value. */
  datatype Patch<+T> = Unset | Set(value: T) {
    function Or(current: T): T {
      if Set? then value else current
    }
  }

  type Day = int
  type Timestamp = int

  datatype TaskType = Research | Decision | Execution
  datatype Priority = Must | Should
  datatype TaskStatus = Todo | Doing | Done | CarryoverCandidate | NeedsRedefine | Snoozed

  /** The four carryover policies: "today", "plus_2d", "plus_7d" and "needs_redefine". */
  datatype CarryoverAction = MoveToToday | AddTwoDays | AddSevenDays | MarkNeedsRedefine

  datatype Task = Task(
    id: int,
    title: string,
    taskType: TaskType,
    category: Option<string>,
    priority: Priority,
    status: TaskStatus,
    dueDate: Option<Day>,
    parentId: Option<int>,
    doneCriteria: string,
    decisionCriteria: Option<string>,
    reversible: Option<bool>,
    explorationLimit: Option<int>,
    originItemId: Option<int>,
    lastUpdatedAt: Option<Timestamp>,
    createdAt: Timestamp)

  datatype ChecklistItem = ChecklistItem(
    id: int,
    taskId: int,
    text: string,
    isDone: bool,
    orderNo: int,
    extractedTaskId: Option<int>)

  datatype CompletionLog = CompletionLog(
    id: int,
    taskId: int,
    completedAt: Timestamp,
    note: Option<string>)

  datatype CaptureItem = CaptureItem(
    id: int,
    relatedTaskId: Option<int>,
    text: string,
    createdAt: Timestamp,
    isResolved: bool)

  function TaskId(t: Task): int { t.id }
  function ItemId(i: ChecklistItem): int { i.id }
  function LogId(l: CompletionLog): int { l.id }
  function CaptureId(c: CaptureItem): int { c.id }

  // ── Requests ────────────────────────────────────────────────────────────

  datatype TaskCreate = TaskCreate(
    title: string,
    taskType: TaskType,
    category: Option<string>,
    priority: Priority,
    dueDate: Option<Day>,
    parentId: Option<int>,
    doneCriteria: string,
    decisionCriteria: Option<string>,
    reversible: Option<bool>,
    explorationLimit: Option<int>)

  /** Every field may be left out; the nullable columns may also be sent as null. */
  datatype TaskUpdate = TaskUpdate(
    title: Patch<string>,
    taskType: Patch<TaskType>,
    category: Patch<Option<string>>,
    priority: Patch<Priority>,
    status: Patch<TaskStatus>,
    dueDate: Patch<Option<Day>>,
    doneCriteria: Patch<string>,
    decisionCriteria: Patch<Option<string>>,
    reversible: Patch<Option<bool>>,
    explorationLimit: Patch<Option<int>>)

  datatype TaskFilter = TaskFilter(
    status: Option<TaskStatus>,
    taskType: Option<TaskType>,
    priority: Option<Priority>,
    parentId: Option<int>)

  datatype ItemCreate = ItemCreate(text: string, orderNo: Option<int>)

  datatype ItemUpdate = ItemUpdate(isDone: Patch<bool>, text: Patch<string>)

  /** The task type defaults to execution when the request leaves it out. */
  datatype ExtractRequest = ExtractRequest(
    title: Option<string>,
    taskType: TaskType,
    priority: Option<Priority>,
    dueDate: Option<Day>,
    doneCriteria: Option<string>)

  datatype CaptureCreate = CaptureCreate(text: string, relatedTaskId: Option<int>)

  datatype CaptureUpdate = CaptureUpdate(
    text: Patch<string>,
    isResolved: Patch<bool>,
    relatedTaskId: Patch<Option<int>>)

  // ── Errors ──────────────────────────────────────────────────────────────

  /** NotFound is the backend's 404; the other three are its 400 responses. */
  datatype Error = NotFound | InvalidTransition | ChecklistIncomplete(blocking: nat) | AlreadyExtracted

  datatype Result<+T> = Ok(value: T) | Err(error: Error)

  // ── Python truthiness ───────────────────────────────────────────────────

  /** `if x:` on an optional id: false for None and also for 0. */
  predicate Truthy(id: Option<int>) {
    id.Some? && id.value != 0
  }

  /** `a or b` on an optional string: falls back on None and on "". */
  function OrElse(s: Option<string>, fallback: string): (r: string)
    ensures r == fallback || (s.Some? && r == s.value && r != "")
    ensures s.Some? && s.value != "" ==> r == s.value
  {
    if s.Some? && s.value != "" then s.value else fallback
  }
}
