/** What the task service promises, stated over its operations on the store:
    the update guard and partial updates, the cascading delete, the completion
    gate, one-time extraction with its two-way link, the automatic checklist
    position, convergence and staleness, and that every operation keeps the
    store's referential integrity. */
module TaskProperties {
  import opened Domain
  import opened Store
  import opened Updates
  import opened TaskService

  // ── Create ──────────────────────────────────────────────────────────────

  /** A created task gets a fresh id and the request's columns, starts as
      todo with no origin, and is the only change to the store. */
  lemma CreateTaskEffect(db: Db, req: TaskCreate, now: Timestamp)
    requires Valid(db)
    requires ParentGuard(db, req.parentId)
    ensures var s := CreateTask(db, req, now);
      && s.result.Ok?
      && var t := s.result.value;
      && t.id !in db.tasks
      && s.db.tasks == db.tasks[t.id := t]
      && s.db.items == db.items && s.db.logs == db.logs && s.db.captures == db.captures
      && t.title == req.title && t.taskType == req.taskType && t.category == req.category
      && t.priority == req.priority && t.dueDate == req.dueDate && t.parentId == req.parentId
      && t.doneCriteria == req.doneCriteria && t.decisionCriteria == req.decisionCriteria
      && t.reversible == req.reversible && t.explorationLimit == req.explorationLimit
      && t.status == Todo && t.originItemId.None?
      && t.createdAt == now && t.lastUpdatedAt == Some(now)
  {
    assert db.nextTaskId !in db.tasks;
  }

  lemma AddTaskKeepsValid(db: Db, t: Task)
    requires Valid(db)
    requires t.id == db.nextTaskId
    requires t.parentId.None? || t.parentId.value in db.tasks
    requires t.originItemId.None? || t.originItemId.value in db.items
    ensures Valid(AddTask(db, t))
  {
  }

  lemma CreateTaskKeepsValid(db: Db, req: TaskCreate, now: Timestamp)
    requires Valid(db)
    ensures Valid(CreateTask(db, req, now).db)
  {
    if ParentGuard(db, req.parentId) {
      AddTaskKeepsValid(db, NewTask(db.nextTaskId, req, req.parentId, now));
    }
  }

  /** `create_child` is `create_task` with the parent id overwritten by the
      path's task id: the new row takes every other column from the request,
      and `CreateTaskEffect` states them and the unchanged rest of the store. */
  lemma CreateChildIsCreateTask(db: Db, id: int, req: TaskCreate, now: Timestamp)
    requires id in db.tasks
    ensures CreateChild(db, id, req, now) == CreateTask(db, req.(parentId := Some(id)), now)
  {
  }

  /** A created child gets a fresh id, the path's task as parent and every
      other column from the request, starts as todo with no origin, and is
      the only change to the store. */
  lemma CreateChildEffect(db: Db, id: int, req: TaskCreate, now: Timestamp)
    requires Valid(db)
    requires id in db.tasks
    ensures var s := CreateChild(db, id, req, now);
      && s.result.Ok?
      && var t := s.result.value;
      && t.id !in db.tasks
      && s.db.tasks == db.tasks[t.id := t]
      && s.db.items == db.items && s.db.logs == db.logs && s.db.captures == db.captures
      && t.title == req.title && t.taskType == req.taskType && t.category == req.category
      && t.priority == req.priority && t.dueDate == req.dueDate && t.parentId == Some(id)
      && t.doneCriteria == req.doneCriteria && t.decisionCriteria == req.decisionCriteria
      && t.reversible == req.reversible && t.explorationLimit == req.explorationLimit
      && t.status == Todo && t.originItemId.None?
      && t.createdAt == now && t.lastUpdatedAt == Some(now)
  {
    CreateChildIsCreateTask(db, id, req, now);
    CreateTaskEffect(db, req.(parentId := Some(id)), now);
  }

  /** Creating under an existing parent adds exactly one child to it. */
  lemma CreateChildAddsOneChild(db: Db, id: int, req: TaskCreate, now: Timestamp)
    requires Valid(db)
    requires id in db.tasks
    ensures var s := CreateChild(db, id, req, now);
      && s.result.Ok?
      && s.result.value.parentId == Some(id)
      && ChildrenOf(s.db, id) == ChildrenOf(db, id) + {s.result.value.id}
      && |ChildrenOf(s.db, id)| == |ChildrenOf(db, id)| + 1
  {
    var s := CreateChild(db, id, req, now);
    assert db.nextTaskId !in ChildrenOf(db, id);
    assert ChildrenOf(s.db, id) == ChildrenOf(db, id) + {db.nextTaskId};
  }

  lemma CreateChildKeepsValid(db: Db, id: int, req: TaskCreate, now: Timestamp)
    requires Valid(db)
    ensures Valid(CreateChild(db, id, req, now).db)
  {
    if id in db.tasks {
      AddTaskKeepsValid(db, NewTask(db.nextTaskId, req, Some(id), now));
    }
  }

  // ── Update ──────────────────────────────────────────────────────────────

  /** The guard reads the dumped request, and it fires exactly when the
      request sends status done. */
  lemma {:induction false} DoneGuardIsStatusDone(req: TaskUpdate)
    ensures SetStatus(Done) in DumpTask(req) <==> req.status == Set(Done)
  {
    var a, b, c, d := DumpNames(req), DumpPlan(req), DumpCriteria(req), DumpLimits(req);
    assert SetStatus(Done) !in a;
    assert SetStatus(Done) !in c;
    assert SetStatus(Done) !in d;
    assert SetStatus(Done) in b <==> req.status == Set(Done);
    assert DumpTask(req) == a + b + c + d;
  }

  /** An update of an existing task is refused exactly when it sends status
      done, and then changes nothing; otherwise the task takes the sent
      fields, keeps every other column, and `last_updated_at` becomes `now`. */
  lemma UpdateTaskEffect(db: Db, id: int, req: TaskUpdate, now: Timestamp)
    requires id in db.tasks
    ensures var s := UpdateTask(db, id, req, now);
      && (s.result.Err? <==> req.status == Set(Done))
      && (s.result.Err? ==> s.result.error == InvalidTransition && s.db == db)
      && (s.result.Ok? ==>
            var t := PatchedTask(db.tasks[id], req).(lastUpdatedAt := Some(now));
            s.result.value == t && s.db == db.(tasks := db.tasks[id := t]))
  {
    DoneGuardIsStatusDone(req);
    TaskDumpApplies(db.tasks[id], req);
  }

  /** A successful update never moves a task into done: only completion does. */
  lemma UpdateNeverCompletes(db: Db, id: int, req: TaskUpdate, now: Timestamp)
    requires id in db.tasks
    ensures var s := UpdateTask(db, id, req, now);
      s.result.Ok? && s.result.value.status == Done ==> db.tasks[id].status == Done
  {
    UpdateTaskEffect(db, id, req, now);
  }

  lemma UpdateTaskKeepsValid(db: Db, id: int, req: TaskUpdate, now: Timestamp)
    requires Valid(db)
    ensures Valid(UpdateTask(db, id, req, now).db)
  {
    if id in db.tasks {
      UpdateTaskEffect(db, id, req, now);
    }
  }

  // ── Delete ──────────────────────────────────────────────────────────────

  /** After deleting a task: it is gone and no other task is; nothing refers
      to it as a parent and no task keeps an origin among its checklist items;
      no capture is linked to it; its items and logs are gone and every other
      item and log is kept as it was; the other tasks change only in the
      references that were nulled, and a task whose reference was nulled has
      `last_updated_at` set to `now`. */
  lemma DeleteTaskEffect(db: Db, id: int, now: Timestamp)
    requires id in db.tasks
    ensures var s := DeleteTask(db, id, now);
      && s.result.Ok?
      && s.db.tasks.Keys == db.tasks.Keys - {id}
      && (forall k :: k in s.db.tasks ==> s.db.tasks[k].parentId != Some(id))
      && (forall k :: k in s.db.tasks && s.db.tasks[k].originItemId.Some? ==>
            s.db.tasks[k].originItemId.value !in ItemsOf(db, id))
      && (forall k :: k in s.db.tasks ==>
            var o := db.tasks[k];
            var child := o.parentId == Some(id);
            var linked := o.originItemId.Some? && o.originItemId.value in ItemsOf(db, id);
            && s.db.tasks[k].parentId == (if child then None else o.parentId)
            && s.db.tasks[k].originItemId == (if linked then None else o.originItemId)
            && s.db.tasks[k].lastUpdatedAt == (if child || linked then Some(now) else o.lastUpdatedAt)
            && s.db.tasks[k].(parentId := o.parentId, originItemId := o.originItemId,
                              lastUpdatedAt := o.lastUpdatedAt) == o)
      && s.db.captures.Keys == db.captures.Keys
      && (forall k :: k in s.db.captures ==> s.db.captures[k].relatedTaskId != Some(id))
      && (forall k :: k in s.db.captures ==>
            var o := db.captures[k];
            && s.db.captures[k].relatedTaskId == (if o.relatedTaskId == Some(id) then None else o.relatedTaskId)
            && s.db.captures[k].(relatedTaskId := o.relatedTaskId) == o)
      && s.db.items.Keys == db.items.Keys - ItemsOf(db, id)
      && (forall k :: k in s.db.items ==> s.db.items[k] == db.items[k])
      && (forall k :: k in s.db.logs ==> s.db.logs[k] == db.logs[k] && s.db.logs[k].taskId != id)
      && (forall k :: k in db.logs && db.logs[k].taskId != id ==> k in s.db.logs)
  {
  }

  /** The cascade does not follow the other direction of an extraction: an
      item of another task that was extracted into the deleted task keeps
      pointing at it. */
  lemma DeleteKeepsExtractedLink(db: Db, id: int, k: int, now: Timestamp)
    requires id in db.tasks
    requires k in db.items && db.items[k].taskId != id && db.items[k].extractedTaskId == Some(id)
    ensures var s := DeleteTask(db, id, now);
      k in s.db.items && s.db.items[k].extractedTaskId == Some(id) && id !in s.db.tasks
  {
  }

  lemma DeleteTaskKeepsValid(db: Db, id: int, now: Timestamp)
    requires Valid(db)
    ensures Valid(DeleteTask(db, id, now).db)
  {
    if id in db.tasks {
      var s := DeleteTask(db, id, now);
      DeleteTaskEffect(db, id, now);
      forall k | k in s.db.tasks && s.db.tasks[k].parentId.Some?
        ensures s.db.tasks[k].parentId.value in s.db.tasks
      {
        assert db.tasks[k].parentId == s.db.tasks[k].parentId;
      }
      forall k | k in s.db.tasks && s.db.tasks[k].originItemId.Some?
        ensures s.db.tasks[k].originItemId.value in s.db.items
      {
        var o := s.db.tasks[k].originItemId.value;
        assert o in db.items && o !in ItemsOf(db, id);
      }
      forall k | k in s.db.items ensures s.db.items[k].taskId in s.db.tasks {
        assert k !in ItemsOf(db, id);
      }
    }
  }

  // ── Completion ──────────────────────────────────────────────────────────

  /** Completing an existing task fails exactly while an item blocks it,
      reporting how many do and changing nothing. */
  lemma CompletionGate(db: Db, id: int, note: Option<string>, now: Timestamp)
    requires id in db.tasks
    ensures var s := CompleteTask(db, id, note, now);
      && (s.result.Ok? <==> Blocking(db, id) == {})
      && (s.result.Err? ==> s.result.error == ChecklistIncomplete(|Blocking(db, id)|)
                            && |Blocking(db, id)| >= 1 && s.db == db)
  {
  }

  /** A successful completion marks the task done, touches it, and appends
      exactly one log for it with the given note; nothing else changes. */
  lemma CompleteTaskEffect(db: Db, id: int, note: Option<string>, now: Timestamp)
    requires Valid(db)
    requires id in db.tasks && Blocking(db, id) == {}
    ensures var s := CompleteTask(db, id, note, now);
      && s.result.Ok?
      && var log := s.result.value;
      && log.taskId == id && log.note == note && log.completedAt == now
      && log.id !in db.logs
      && s.db.logs == db.logs[log.id := log]
      && |s.db.logs| == |db.logs| + 1
      && s.db.tasks == db.tasks[id := db.tasks[id].(status := Done, lastUpdatedAt := Some(now))]
      && s.db.items == db.items && s.db.captures == db.captures
  {
    assert db.nextLogId !in db.logs;
  }

  lemma CompleteTaskKeepsValid(db: Db, id: int, note: Option<string>, now: Timestamp)
    requires Valid(db)
    ensures Valid(CompleteTask(db, id, note, now).db)
  {
    if id in db.tasks && Blocking(db, id) == {} {
      CompleteTaskEffect(db, id, note, now);
    }
  }

  /** Completing is not refused for a task that is already done: a second
      completion succeeds too, and the task then has two more logs. */
  lemma {:induction false} CompletingTwiceLogsTwice(db: Db, id: int, now1: Timestamp, now2: Timestamp)
    requires Valid(db)
    requires id in db.tasks && Blocking(db, id) == {}
    ensures var s1 := CompleteTask(db, id, None, now1);
      var s2 := CompleteTask(s1.db, id, None, now2);
      && s1.result.Ok? && s2.result.Ok?
      && s1.result.value.id != s2.result.value.id
      && |s2.db.logs| == |db.logs| + 2
      && s2.db.tasks[id].status == Done
  {
    var s1 := CompleteTask(db, id, None, now1);
    CompleteTaskEffect(db, id, None, now1);
    CompleteTaskKeepsValid(db, id, None, now1);
    assert Blocking(s1.db, id) == Blocking(db, id);
    CompleteTaskEffect(s1.db, id, None, now2);
  }

  // ── Checklist ───────────────────────────────────────────────────────────

  /** A new item is open, not extracted, placed at the task's item count plus
      one unless a position is given, and is the only change to the store. */
  lemma CreateItemEffect(db: Db, id: int, req: ItemCreate)
    requires Valid(db)
    requires id in db.tasks
    ensures var s := CreateChecklistItem(db, id, req);
      && s.result.Ok?
      && var item := s.result.value;
      && item.id !in db.items
      && s.db.items == db.items[item.id := item]
      && item.taskId == id && item.text == req.text && !item.isDone && item.extractedTaskId.None?
      && (req.orderNo.None? ==> item.orderNo == |ItemsOf(db, id)| + 1)
      && (req.orderNo.Some? ==> item.orderNo == req.orderNo.value)
      && ItemsOf(s.db, id) == ItemsOf(db, id) + {item.id}
      && s.db.tasks == db.tasks && s.db.logs == db.logs && s.db.captures == db.captures
  {
    var s := CreateChecklistItem(db, id, req);
    assert db.nextItemId !in db.items;
    assert ItemsOf(s.db, id) == ItemsOf(db, id) + {db.nextItemId};
  }

  /** The automatic position counts items rather than taking the largest one,
      so it can repeat a position that was given explicitly: on a task without
      items, an item placed at 2 followed by an item without a position puts
      both at 2. */
  lemma {:induction false} AutoOrderCanCollide(db: Db, id: int, a: string, b: string)
    requires Valid(db)
    requires id in db.tasks && ItemsOf(db, id) == {}
    ensures var s1 := CreateChecklistItem(db, id, ItemCreate(a, Some(2)));
      var s2 := CreateChecklistItem(s1.db, id, ItemCreate(b, None));
      && s1.result.Ok? && s2.result.Ok?
      && s1.result.value.id != s2.result.value.id
      && s1.result.value.orderNo == s2.result.value.orderNo == 2
  {
    var s1 := CreateChecklistItem(db, id, ItemCreate(a, Some(2)));
    CreateItemEffect(db, id, ItemCreate(a, Some(2)));
    CreateItemKeepsValid(db, id, ItemCreate(a, Some(2)));
    CreateItemEffect(s1.db, id, ItemCreate(b, None));
  }

  lemma CreateItemKeepsValid(db: Db, id: int, req: ItemCreate)
    requires Valid(db)
    ensures Valid(CreateChecklistItem(db, id, req).db)
  {
    if id in db.tasks {
      CreateItemEffect(db, id, req);
    }
  }

  /** A found item changes in exactly the sent fields; nothing else changes. */
  lemma UpdateItemEffect(db: Db, id: int, itemId: int, req: ItemUpdate)
    requires itemId in db.items && db.items[itemId].taskId == id
    ensures var s := UpdateChecklistItem(db, id, itemId, req);
      && s.result == Ok(PatchedItem(db.items[itemId], req))
      && s.db == db.(items := db.items[itemId := PatchedItem(db.items[itemId], req)])
  {
    ItemDumpApplies(db.items[itemId], req);
  }

  lemma UpdateItemKeepsValid(db: Db, id: int, itemId: int, req: ItemUpdate)
    requires Valid(db)
    ensures Valid(UpdateChecklistItem(db, id, itemId, req).db)
  {
    if itemId in db.items && db.items[itemId].taskId == id {
      UpdateItemEffect(db, id, itemId, req);
    }
  }

  // ── Extraction ──────────────────────────────────────────────────────────

  /** Extraction fails with NotFound when the task is missing or the item is
      missing or belongs to another task, and with AlreadyExtracted when the
      item already points at a task; a failure changes nothing. */
  lemma ExtractErrors(db: Db, id: int, itemId: int, req: ExtractRequest, now: Timestamp)
    ensures var s := ExtractChecklistItem(db, id, itemId, req, now);
      && (s.result == Err(NotFound) <==>
            id !in db.tasks || itemId !in db.items || db.items[itemId].taskId != id)
      && (s.result == Err(AlreadyExtracted) <==>
            id in db.tasks && itemId in db.items && db.items[itemId].taskId == id
            && Truthy(db.items[itemId].extractedTaskId))
      && (s.result.Err? ==> s.db == db)
  {
  }

  /** A successful extraction adds one child task built from the item and
      the request, and links the two both ways; the item is marked done. */
  lemma ExtractEffect(db: Db, id: int, itemId: int, req: ExtractRequest, now: Timestamp)
    requires Valid(db)
    requires id in db.tasks && itemId in db.items && db.items[itemId].taskId == id
    requires !Truthy(db.items[itemId].extractedTaskId)
    ensures var s := ExtractChecklistItem(db, id, itemId, req, now);
      var item := db.items[itemId];
      && s.result.Ok?
      && var t := s.result.value.extractedTask;
      && var item' := s.result.value.checklistItem;
      && t.id !in db.tasks
      && s.db.tasks == db.tasks[t.id := t]
      && s.db.items == db.items[itemId := item']
      && s.db.logs == db.logs && s.db.captures == db.captures
      && t.parentId == Some(id) && t.originItemId == Some(itemId)
      && item'.extractedTaskId == Some(t.id) && item'.isDone
      && item' == item.(extractedTaskId := item'.extractedTaskId, isDone := true)
      && t.status == Todo && t.taskType == req.taskType && t.dueDate == req.dueDate
      && t.title == (if req.title.Some? && req.title.value != "" then req.title.value else item.text)
      && t.doneCriteria == (if req.doneCriteria.Some? && req.doneCriteria.value != "" then req.doneCriteria.value else t.title)
      && t.priority == (if req.priority.Some? then req.priority.value else db.tasks[id].priority)
      && t.category.None? && t.decisionCriteria.None? && t.reversible.None? && t.explorationLimit.None?
      && t.lastUpdatedAt == Some(now) && t.createdAt == now
  {
    assert db.nextTaskId !in db.tasks;
  }

  lemma ExtractKeepsValid(db: Db, id: int, itemId: int, req: ExtractRequest, now: Timestamp)
    requires Valid(db)
    ensures Valid(ExtractChecklistItem(db, id, itemId, req, now).db)
  {
    if id in db.tasks && itemId in db.items && db.items[itemId].taskId == id
       && !Truthy(db.items[itemId].extractedTaskId)
    {
      ExtractEffect(db, id, itemId, req, now);
      var s := ExtractChecklistItem(db, id, itemId, req, now);
      assert s.db.items.Keys == db.items.Keys;
    }
  }

  /** An item is extracted at most once: extracting it again fails and
      changes nothing. */
  lemma {:induction false} ExtractTwiceFails(db: Db, id: int, itemId: int, req1: ExtractRequest, req2: ExtractRequest,
                                             now1: Timestamp, now2: Timestamp)
    requires Valid(db)
    requires ExtractChecklistItem(db, id, itemId, req1, now1).result.Ok?
    ensures var s1 := ExtractChecklistItem(db, id, itemId, req1, now1);
      var s2 := ExtractChecklistItem(s1.db, id, itemId, req2, now2);
      s2.result == Err(AlreadyExtracted) && s2.db == s1.db
  {
    ExtractEffect(db, id, itemId, req1, now1);
  }

  /** Extracting an item stops it from blocking completion and leaves the
      other items' blocking unchanged. */
  lemma ExtractUnblocks(db: Db, id: int, itemId: int, req: ExtractRequest, now: Timestamp)
    requires Valid(db)
    requires ExtractChecklistItem(db, id, itemId, req, now).result.Ok?
    ensures var s := ExtractChecklistItem(db, id, itemId, req, now);
      Blocking(s.db, id) == Blocking(db, id) - {itemId}
  {
    ExtractEffect(db, id, itemId, req, now);
  }

  /** The detail of an extracted task resolves its origin to the parent task
      and the text of the item it came from. */
  lemma ExtractThenOrigin(db: Db, id: int, itemId: int, req: ExtractRequest, now: Timestamp)
    requires Valid(db)
    requires ExtractChecklistItem(db, id, itemId, req, now).result.Ok?
    ensures var s := ExtractChecklistItem(db, id, itemId, req, now);
      var t := s.result.value.extractedTask;
      GetTaskDetail(s.db, t.id) == Ok(Detail(t, Some(Origin(id, db.tasks[id].title, db.items[itemId].text))))
  {
    ExtractEffect(db, id, itemId, req, now);
  }

  // ── Convergence ─────────────────────────────────────────────────────────

  /** The decision checklist: within the exploration limit (or no limit), at
      most three children, and reversibility confirmed as exactly true. */
  lemma ConvergenceChecklist(db: Db, id: int)
    requires id in db.tasks
    ensures var r := GetConvergence(db, id);
      var t := db.tasks[id];
      var used := |ChildrenOf(db, id)|;
      && r.Ok?
      && r.value.isConvergeable == (r.value.optionsWithinLimit && r.value.structureSimplified && r.value.reversibleConfirmed)
      && (r.value.optionsWithinLimit <==> t.explorationLimit.None? || used <= t.explorationLimit.value)
      && (r.value.structureSimplified <==> used <= 3)
      && (r.value.reversibleConfirmed <==> t.reversible == Some(true))
      && (t.explorationLimit.Some? ==> r.value.explorationRemaining == Some(t.explorationLimit.value - used))
      && (t.explorationLimit.None? ==> r.value.explorationRemaining.None?)
      && r.value.taskId == id && r.value.explorationUsed == used
      && r.value.explorationLimit == t.explorationLimit && r.value.reversible == t.reversible
      && r.value.decisionCriteria == t.decisionCriteria
  {
  }

  /** A convergeable task has a non-negative remaining budget. */
  lemma ConvergeableHasBudget(db: Db, id: int)
    requires id in db.tasks
    requires GetConvergence(db, id).value.isConvergeable
    ensures var r := GetConvergence(db, id).value;
      && r.explorationUsed <= 3
      && (r.explorationRemaining.Some? ==> r.explorationRemaining.value >= 0)
  {
  }

  /** With a limit of two and three children, the options are over the limit
      and the task does not converge; with reversibility unknown it never
      converges, whatever its children. */
  lemma ConvergenceExamples(db: Db, id: int)
    requires id in db.tasks
    ensures db.tasks[id].explorationLimit == Some(2) && |ChildrenOf(db, id)| == 3 ==>
      !GetConvergence(db, id).value.optionsWithinLimit && !GetConvergence(db, id).value.isConvergeable
    ensures db.tasks[id].reversible.None? ==> !GetConvergence(db, id).value.isConvergeable
  {
  }

  /** Adding a child never makes a task convergeable that was not. */
  lemma CreateChildNeverConverges(db: Db, id: int, req: TaskCreate, now: Timestamp)
    requires Valid(db)
    requires id in db.tasks
    requires !GetConvergence(db, id).value.isConvergeable
    ensures var s := CreateChild(db, id, req, now);
      !GetConvergence(s.db, id).value.isConvergeable
  {
    CreateChildAddsOneChild(db, id, req, now);
  }

  // ── Staleness ───────────────────────────────────────────────────────────

  /** A must task untouched for seven days is stale; one untouched for a
      microsecond less is not, because days are counted down; a should task
      untouched for six days is not. */
  lemma StaleExamples(t: Task, now: Timestamp)
    requires t.status == Todo
    ensures t.priority == Must && t.lastUpdatedAt == Some(now - 7 * MicrosPerDay) ==> IsStale(t, None, now)
    ensures t.priority == Must && t.lastUpdatedAt == Some(now - 7 * MicrosPerDay + 1) ==> !IsStale(t, None, now)
    ensures t.priority == Should && t.lastUpdatedAt == Some(now - 6 * MicrosPerDay) ==> !IsStale(t, None, now)
    ensures t.priority == Should && t.lastUpdatedAt == Some(now - 21 * MicrosPerDay) ==> IsStale(t, None, now)
    ensures t.priority == Should && t.lastUpdatedAt == Some(now - 21 * MicrosPerDay + 1) ==> !IsStale(t, None, now)
  {
    if t.priority == Must && t.lastUpdatedAt == Some(now - 7 * MicrosPerDay + 1) {
      var d := DaysBetween(now - 7 * MicrosPerDay + 1, now);
      assert d < 7;
    }
  }

  /** A task that was never touched (no `last_updated_at`), or that is done,
      snoozed or a carryover candidate, is never stale. */
  lemma NotStaleWhenInactive(t: Task, priority: Option<Priority>, now: Timestamp)
    requires t.lastUpdatedAt.None? || t.status in {Done, Snoozed, CarryoverCandidate}
    ensures !IsStale(t, priority, now)
  {
  }

  // ── Parent guard ────────────────────────────────────────────────────────

  /** The guard as written lets a parent id of 0 through unchecked; no task
      has id 0, so the store then holds a task whose parent does not exist. */
  lemma ParentZeroDangles(db: Db, req: TaskCreate, now: Timestamp)
    requires Valid(db)
    requires req.parentId == Some(0)
    ensures var s := CreateTaskAsWritten(db, req, now);
      s.result.Ok? && !Valid(s.db)
  {
    var s := CreateTaskAsWritten(db, req, now);
    assert 0 !in db.tasks;
    assert s.db.tasks[db.nextTaskId].parentId == Some(0);
  }

  /** The corrected guard refuses that request, and on every other request
      the two agree. */
  lemma ParentGuardCorrected(db: Db, req: TaskCreate, now: Timestamp)
    requires Valid(db)
    ensures req.parentId == Some(0) ==> CreateTask(db, req, now) == Step(db, Err(NotFound))
    ensures req.parentId != Some(0) ==> CreateTask(db, req, now) == CreateTaskAsWritten(db, req, now)
  {
    assert 0 !in db.tasks;
  }

  // ── The completion scenario ─────────────────────────────────────────────

  /** A new task with one open checklist item: that item is all that blocks it. */
  lemma NewTaskWithItem(db: Db, req: TaskCreate, text: string, now: Timestamp)
    requires Valid(db)
    requires req.parentId.None?
    ensures
      var s1 := CreateTask(db, req, now);
      var t := s1.result.value;
      var s2 := CreateChecklistItem(s1.db, t.id, ItemCreate(text, None));
      var i := s2.result.value;
      && s1.result.Ok? && s2.result.Ok? && Valid(s2.db)
      && t.id in s2.db.tasks && i.id in s2.db.items
      && i.taskId == t.id && i.text == text && !i.isDone && i.extractedTaskId.None?
      && Blocking(s2.db, t.id) == {i.id}
  {
    var s1 := CreateTask(db, req, now);
    CreateTaskEffect(db, req, now);
    CreateTaskKeepsValid(db, req, now);
    var t := s1.result.value;
    assert ItemsOf(s1.db, t.id) == {} by {
      forall k | k in s1.db.items ensures s1.db.items[k].taskId != t.id {
        assert s1.db.items[k].taskId in db.tasks;
      }
    }
    CreateItemEffect(s1.db, t.id, ItemCreate(text, None));
    CreateItemKeepsValid(s1.db, t.id, ItemCreate(text, None));
  }

  /** A new task with one open checklist item cannot be completed; once the
      item is extracted into a child, taking the item's text as the child's
      title, the task completes and gets a log. */
  lemma {:induction false} ExtractThenComplete(db: Db, req: TaskCreate, text: string, now: Timestamp)
    requires Valid(db)
    requires req.parentId.None?
    ensures
      var s1 := CreateTask(db, req, now);
      var t := s1.result.value;
      var s2 := CreateChecklistItem(s1.db, t.id, ItemCreate(text, None));
      var i := s2.result.value;
      var s3 := CompleteTask(s2.db, t.id, None, now);
      var s4 := ExtractChecklistItem(s2.db, t.id, i.id, ExtractRequest(None, Execution, None, None, None), now);
      var c := s4.result.value.extractedTask;
      var s5 := CompleteTask(s4.db, t.id, None, now);
      && s1.result.Ok? && s2.result.Ok?
      && s3.result == Err(ChecklistIncomplete(1))
      && s4.result.Ok?
      && c.parentId == Some(t.id) && c.title == text
      && s4.db.items[i.id].isDone && s4.db.items[i.id].extractedTaskId == Some(c.id)
      && s5.result.Ok? && s5.result.value.taskId == t.id
  {
    NewTaskWithItem(db, req, text, now);
    var t := CreateTask(db, req, now).result.value;
    var s2 := CreateChecklistItem(CreateTask(db, req, now).db, t.id, ItemCreate(text, None));
    var i := s2.result.value;
    CompletionGate(s2.db, t.id, None, now);
    var rq := ExtractRequest(None, Execution, None, None, None);
    ExtractEffect(s2.db, t.id, i.id, rq, now);
    ExtractKeepsValid(s2.db, t.id, i.id, rq, now);
    ExtractUnblocks(s2.db, t.id, i.id, rq, now);
    var s4 := ExtractChecklistItem(s2.db, t.id, i.id, rq, now);
    CompleteTaskEffect(s4.db, t.id, None, now);
  }
}
