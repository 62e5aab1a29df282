/** The database session the services run against: the four tables and their
    id counters, changed in place call by call. Each method does what the
    service code does, in its order, and is proved to land on the store that
    the service's specification function describes; each keeps the store's
    referential integrity. */
module Sessions {
  import opened Domain
  import opened Store
  import opened Updates
  import TaskService
  import CarryoverService
  import CaptureService
  import TaskProperties

  /** The `for key, value in updates.items(): setattr(row, key, value)` loop. */
  method AssignAll<R, F>(row: R, updates: seq<F>, assign: (R, F) -> R) returns (r: R)
    ensures r == Fold(row, updates, assign)
  {
    r := row;
    for i := 0 to |updates|
      invariant r == Fold(row, updates[..i], assign)
    {
      FoldSnoc(row, updates, i, assign);
      r := assign(r, updates[i]);
    }
    assert updates[..|updates|] == updates;
  }

  /** The bulk update that nulls the parent of the children of `id`. */
  function NullParents(ts: map<int, Task>, id: int, now: Timestamp): (r: map<int, Task>)
    ensures r.Keys == ts.Keys
    ensures forall k :: k in r ==> r[k].parentId != Some(id)
    ensures forall k :: k in r && ts[k].parentId != Some(id) ==> r[k] == ts[k]
  {
    map k | k in ts :: if ts[k].parentId == Some(id) then ts[k].(parentId := None, lastUpdatedAt := Some(now)) else ts[k]
  }

  /** The bulk update that nulls every origin among `owned`. */
  function NullOrigins(ts: map<int, Task>, owned: set<int>, now: Timestamp): (r: map<int, Task>)
    ensures r.Keys == ts.Keys
    ensures forall k :: k in r && r[k].originItemId.Some? ==> r[k].originItemId.value !in owned
    ensures forall k :: k in r ==> r[k].parentId == ts[k].parentId
  {
    map k | k in ts ::
      if ts[k].originItemId.Some? && ts[k].originItemId.value in owned
      then ts[k].(originItemId := None, lastUpdatedAt := Some(now))
      else ts[k]
  }

  /** The bulk update that unlinks the captures of task `id`. */
  function UnlinkAll(cs: map<int, CaptureItem>, id: int): map<int, CaptureItem> {
    map k | k in cs :: TaskService.Unlinked(cs[k], id)
  }

  /** The bulk delete of the checklist items of task `id`. */
  function KeptItems(items: map<int, ChecklistItem>, id: int): map<int, ChecklistItem> {
    map k | k in items && items[k].taskId != id :: items[k]
  }

  /** The bulk delete of the completion logs of task `id`. */
  function KeptLogs(logs: map<int, CompletionLog>, id: int): map<int, CompletionLog> {
    map k | k in logs && logs[k].taskId != id :: logs[k]
  }

  /** The tasks after the two bulk updates (the second skipped when the task
      has no items) and the final delete. */
  function CascadeTasks(ts: map<int, Task>, id: int, owned: set<int>, now: Timestamp): map<int, Task> {
    (if owned != {} then NullOrigins(NullParents(ts, id, now), owned, now) else NullParents(ts, id, now)) - {id}
  }

  /** The two bulk updates and the final delete detach every other task as
      the cascade's specification says. */
  lemma CascadeDetaches(ts: map<int, Task>, id: int, owned: set<int>, now: Timestamp)
    ensures CascadeTasks(ts, id, owned, now) == map k | k in ts && k != id :: TaskService.Detached(ts[k], id, owned, now)
  {
    var after := CascadeTasks(ts, id, owned, now);
    var spec := map k | k in ts && k != id :: TaskService.Detached(ts[k], id, owned, now);
    assert after.Keys == spec.Keys;
    forall k | k in spec ensures after[k] == spec[k] {
    }
  }

  /** The statements of the cascade, run in the service's order, produce the
      store that `TaskService.DeleteTask` describes. */
  lemma CascadeMatches(db: Db, id: int, now: Timestamp)
    requires id in db.tasks
    ensures TaskService.DeleteTask(db, id, now).db ==
      db.(tasks := CascadeTasks(db.tasks, id, ItemsOf(db, id), now),
          items := KeptItems(db.items, id),
          logs := KeptLogs(db.logs, id),
          captures := UnlinkAll(db.captures, id))
  {
    CascadeDetaches(db.tasks, id, ItemsOf(db, id), now);
  }

  class Session {
    var tasks: map<int, Task>
    var items: map<int, ChecklistItem>
    var logs: map<int, CompletionLog>
    var captures: map<int, CaptureItem>
    var nextTaskId: int
    var nextItemId: int
    var nextLogId: int
    var nextCaptureId: int

    /** The committed contents, as a store value. */
    function State(): Db
      reads this
    {
      Db(tasks, items, logs, captures, nextTaskId, nextItemId, nextLogId, nextCaptureId)
    }

    constructor ()
      ensures State() == Empty() && Valid(State())
    {
      tasks, items, logs, captures := map[], map[], map[], map[];
      nextTaskId, nextItemId, nextLogId, nextCaptureId := 1, 1, 1, 1;
      EmptyIsValid();
    }

    /** `db.add(task)` and the commit: the row goes in under the next id. */
    method InsertTask(t: Task)
      modifies this
      requires t.id == nextTaskId
      ensures State() == TaskService.AddTask(old(State()), t)
    {
      tasks := tasks[nextTaskId := t];
      nextTaskId := nextTaskId + 1;
    }

    // ── Tasks ─────────────────────────────────────────────────────────────

    method CreateTask(req: TaskCreate, now: Timestamp) returns (r: Result<Task>)
      modifies this
      requires Valid(State())
      ensures Step(State(), r) == TaskService.CreateTask(old(State()), req, now)
      ensures Valid(State())
    {
      TaskProperties.CreateTaskKeepsValid(State(), req, now);
      if req.parentId.Some? && req.parentId.value !in tasks {
        return Err(NotFound);
      }
      var t := TaskService.NewTask(nextTaskId, req, req.parentId, now);
      InsertTask(t);
      r := Ok(t);
    }

    method UpdateTask(id: int, req: TaskUpdate, now: Timestamp) returns (r: Result<Task>)
      modifies this
      requires Valid(State())
      ensures Step(State(), r) == TaskService.UpdateTask(old(State()), id, req, now)
      ensures Valid(State())
    {
      TaskProperties.UpdateTaskKeepsValid(State(), id, req, now);
      if id !in tasks {
        return Err(NotFound);
      }
      var updates := DumpTask(req);
      if SetStatus(Done) in updates {
        return Err(InvalidTransition);
      }
      var t := AssignAll(tasks[id], updates, AssignTask);
      t := t.(lastUpdatedAt := Some(now));
      tasks := tasks[id := t];
      r := Ok(t);
    }

    /** The cascade runs as the service writes it: children lose their parent,
        tasks extracted from this task's items lose their origin, captures are
        unlinked, then the items, the logs and the task itself are deleted. */
    method DeleteTask(id: int, now: Timestamp) returns (r: Result<()>)
      modifies this
      requires Valid(State())
      ensures Step(State(), r) == TaskService.DeleteTask(old(State()), id, now)
      ensures Valid(State())
    {
      TaskProperties.DeleteTaskKeepsValid(State(), id, now);
      if id !in tasks {
        return Err(NotFound);
      }
      ghost var db := State();
      var owned := ItemsOf(State(), id);
      tasks := NullParents(tasks, id, now);
      if owned != {} {
        tasks := NullOrigins(tasks, owned, now);
      }
      captures := UnlinkAll(captures, id);
      items := KeptItems(items, id);
      logs := KeptLogs(logs, id);
      tasks := tasks - {id};
      r := Ok(());
      CascadeMatches(db, id, now);
    }

    method CreateChild(id: int, req: TaskCreate, now: Timestamp) returns (r: Result<Task>)
      modifies this
      requires Valid(State())
      ensures Step(State(), r) == TaskService.CreateChild(old(State()), id, req, now)
      ensures Valid(State())
    {
      TaskProperties.CreateChildKeepsValid(State(), id, req, now);
      if id !in tasks {
        return Err(NotFound);
      }
      var t := TaskService.NewTask(nextTaskId, req, Some(id), now);
      InsertTask(t);
      r := Ok(t);
    }

    method CompleteTask(id: int, note: Option<string>, now: Timestamp) returns (r: Result<CompletionLog>)
      modifies this
      requires Valid(State())
      ensures Step(State(), r) == TaskService.CompleteTask(old(State()), id, note, now)
      ensures Valid(State())
    {
      TaskProperties.CompleteTaskKeepsValid(State(), id, note, now);
      if id !in tasks {
        return Err(NotFound);
      }
      var blocking := set k | k in items && items[k].taskId == id && !items[k].isDone && items[k].extractedTaskId.None?;
      if blocking != {} {
        return Err(ChecklistIncomplete(|blocking|));
      }
      tasks := tasks[id := tasks[id].(status := Done, lastUpdatedAt := Some(now))];
      var log := CompletionLog(nextLogId, id, now, note);
      logs := logs[nextLogId := log];
      nextLogId := nextLogId + 1;
      r := Ok(log);
    }

    // ── Checklist ─────────────────────────────────────────────────────────

    method CreateChecklistItem(id: int, req: ItemCreate) returns (r: Result<ChecklistItem>)
      modifies this
      requires Valid(State())
      ensures Step(State(), r) == TaskService.CreateChecklistItem(old(State()), id, req)
      ensures Valid(State())
    {
      TaskProperties.CreateItemKeepsValid(State(), id, req);
      if id !in tasks {
        return Err(NotFound);
      }
      var orderNo: int;
      if req.orderNo.None? {
        var count := |set k | k in items && items[k].taskId == id|;
        orderNo := count + 1;
      } else {
        orderNo := req.orderNo.value;
      }
      var item := ChecklistItem(nextItemId, id, req.text, false, orderNo, None);
      items := items[nextItemId := item];
      nextItemId := nextItemId + 1;
      r := Ok(item);
    }

    method UpdateChecklistItem(id: int, itemId: int, req: ItemUpdate) returns (r: Result<ChecklistItem>)
      modifies this
      requires Valid(State())
      ensures Step(State(), r) == TaskService.UpdateChecklistItem(old(State()), id, itemId, req)
      ensures Valid(State())
    {
      TaskProperties.UpdateItemKeepsValid(State(), id, itemId, req);
      if itemId !in items || items[itemId].taskId != id {
        return Err(NotFound);
      }
      var updates := DumpItem(req);
      var item := AssignAll(items[itemId], updates, AssignItem);
      items := items[itemId := item];
      r := Ok(item);
    }

    /** The new task is inserted first (so it has an id), then the item is
        marked done and pointed at it; both are committed together. */
    method ExtractChecklistItem(id: int, itemId: int, req: ExtractRequest, now: Timestamp)
      returns (r: Result<TaskService.Extracted>)
      modifies this
      requires Valid(State())
      ensures Step(State(), r) == TaskService.ExtractChecklistItem(old(State()), id, itemId, req, now)
      ensures Valid(State())
    {
      TaskProperties.ExtractKeepsValid(State(), id, itemId, req, now);
      if id !in tasks {
        return Err(NotFound);
      }
      if itemId !in items || items[itemId].taskId != id {
        return Err(NotFound);
      }
      var item := items[itemId];
      if Truthy(item.extractedTaskId) {
        return Err(AlreadyExtracted);
      }
      var t := TaskService.ExtractedTask(nextTaskId, tasks[id], item, req, now);
      InsertTask(t);
      item := item.(extractedTaskId := Some(t.id), isDone := true);
      items := items[itemId := item];
      r := Ok(TaskService.Extracted(t, item));
    }

    // ── Carryover ─────────────────────────────────────────────────────────

    method DoCarryover(id: int, action: CarryoverAction, today: Day, now: Timestamp) returns (r: Result<Task>)
      modifies this
      requires Valid(State())
      ensures Step(State(), r) == CarryoverService.DoCarryover(old(State()), id, action, today, now)
      ensures Valid(State())
    {
      CarryoverService.DoCarryoverKeepsValid(State(), id, action, today, now);
      if id !in tasks {
        return Err(NotFound);
      }
      var t := tasks[id];
      if action == MoveToToday {
        t := t.(dueDate := Some(today), status := Todo);
      } else if action == AddTwoDays {
        var base := t.dueDate.GetOr(today);
        t := t.(dueDate := Some(base + 2), status := Todo);
      } else if action == AddSevenDays {
        var base := t.dueDate.GetOr(today);
        t := t.(dueDate := Some(base + 7), status := Todo);
      } else if action == MarkNeedsRedefine {
        t := t.(status := NeedsRedefine);
      }
      t := t.(lastUpdatedAt := Some(now));
      tasks := tasks[id := t];
      r := Ok(t);
    }

    // ── Captures ──────────────────────────────────────────────────────────

    method CreateCapture(req: CaptureCreate, now: Timestamp) returns (r: Result<CaptureItem>)
      modifies this
      requires Valid(State())
      ensures Step(State(), r) == CaptureService.CreateCapture(old(State()), req, now)
      ensures Valid(State())
    {
      CaptureService.CaptureOpsKeepValid(State(), 0, req, CaptureUpdate(Unset, Unset, Unset), now);
      var c := CaptureItem(nextCaptureId, req.relatedTaskId, req.text, now, false);
      captures := captures[nextCaptureId := c];
      nextCaptureId := nextCaptureId + 1;
      r := Ok(c);
    }

    method UpdateCapture(id: int, req: CaptureUpdate) returns (r: Result<CaptureItem>)
      modifies this
      requires Valid(State())
      ensures Step(State(), r) == CaptureService.UpdateCapture(old(State()), id, req)
      ensures Valid(State())
    {
      CaptureService.CaptureOpsKeepValid(State(), id, CaptureCreate("", None), req, 0);
      if id !in captures {
        return Err(NotFound);
      }
      var updates := DumpCapture(req);
      var c := AssignAll(captures[id], updates, AssignCapture);
      captures := captures[id := c];
      r := Ok(c);
    }

    method DeleteCapture(id: int) returns (r: Result<()>)
      modifies this
      requires Valid(State())
      ensures Step(State(), r) == CaptureService.DeleteCapture(old(State()), id)
      ensures Valid(State())
    {
      CaptureService.CaptureOpsKeepValid(State(), id, CaptureCreate("", None), CaptureUpdate(Unset, Unset, Unset), 0);
      if id !in captures {
        return Err(NotFound);
      }
      captures := captures - {id};
      r := Ok(());
    }
  }
}
