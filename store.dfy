/** The persistent store the services work on, as a value: one table per
    entity, each a map from id to record, and a counter per table that hands
    out fresh ids. A service call is one atomic step from one such value to
    the next (the commit), or an error that leaves it as it was. */
module Store {
  import opened Domain
  import Query

  datatype Db = Db(
    tasks: map<int, Task>,
    items: map<int, ChecklistItem>,
    logs: map<int, CompletionLog>,
    captures: map<int, CaptureItem>,
    nextTaskId: int,
    nextItemId: int,
    nextLogId: int,
    nextCaptureId: int)

  /** The new store after one service call, and what the call returned. */
  datatype Step<+T> = Step(db: Db, result: Result<T>)

  function Empty(): (db: Db)
    ensures db.tasks == map[] && db.items == map[] && db.logs == map[] && db.captures == map[]
  {
    Db(map[], map[], map[], map[], 1, 1, 1, 1)
  }

  /** Ids are positive, below the table's counter, and each record sits under its own id. */
  ghost predicate IdsFresh<T>(m: map<int, T>, idOf: T -> int, next: int) {
    && next >= 1
    && Query.Keyed(m, idOf)
    && forall k :: k in m ==> 1 <= k < next
  }

  /** The store's referential integrity: checklist items and completion logs
      belong to an existing task, and a task's parent and origin item exist.
      Neither a checklist item's extracted task nor a capture's related task
      is required to exist: the backend does not keep those. */
  ghost predicate Valid(db: Db): (r: bool)
    ensures r ==> db.nextTaskId !in db.tasks && db.nextItemId !in db.items
    ensures r ==> db.nextLogId !in db.logs && db.nextCaptureId !in db.captures
  {
    && IdsFresh(db.tasks, TaskId, db.nextTaskId)
    && IdsFresh(db.items, ItemId, db.nextItemId)
    && IdsFresh(db.logs, LogId, db.nextLogId)
    && IdsFresh(db.captures, CaptureId, db.nextCaptureId)
    && (forall k :: k in db.items ==> db.items[k].taskId in db.tasks)
    && (forall k :: k in db.logs ==> db.logs[k].taskId in db.tasks)
    && (forall k :: k in db.tasks && db.tasks[k].parentId.Some? ==> db.tasks[k].parentId.value in db.tasks)
    && (forall k :: k in db.tasks && db.tasks[k].originItemId.Some? ==> db.tasks[k].originItemId.value in db.items)
  }

  lemma EmptyIsValid()
    ensures Valid(Empty())
  {
  }

  /** Ids of the checklist items that belong to task `id`. */
  function ItemsOf(db: Db, id: int): (s: set<int>)
    ensures forall k :: k in s <==> k in db.items && db.items[k].taskId == id
  {
    set k | k in db.items && db.items[k].taskId == id
  }

  /** Ids of the direct children of task `id` (tasks whose parent_id is `id`). */
  function ChildrenOf(db: Db, id: int): (s: set<int>)
    ensures forall k :: k in s <==> k in db.tasks && db.tasks[k].parentId == Some(id)
  {
    set k | k in db.tasks && db.tasks[k].parentId == Some(id)
  }
}
