# Task workflow service layer, modelled in Dafny

This project models the workflow core of a small task manager, a FastAPI and SQLAlchemy backend with a Vue/Pinia frontend, and proves what it promises.

- **Task service.** Tasks have a type, a priority, a status and an optional parent. A task owns checklist items, and each completion appends a completion log.
  - A direct `status = done` update is refused; only completion may finish a task.
  - Completion is refused while a checklist item is neither done nor extracted.
  - A checklist item can be extracted, once, into a child task. The child and the item then point at each other.
  - Deleting a task cascades: children lose their parent, tasks extracted from its items lose their origin, and captures are unlinked. Its items and logs are deleted.
  - Two analyses are derived from the store. Convergence checks the exploration limit, a cap of three children and confirmed reversibility. Staleness uses a 7 or 21 day threshold and counts whole days, rounded down.
- **Carryover service.** It lists open overdue tasks with their overdue days and reschedules a task by one of four policies.
- **Capture service.** Keyed create, read, update and delete of quick notes.
- **Frontend stores.** In-memory lists of tasks, captures and carryover candidates. Each supports upsert by id, remove by id and replace-all. The capture store also has resolved and unresolved views.

How the model is built:

- **The store.** The database is a value `Store.Db`: one map per table (tasks, checklist items, completion logs, captures) and a fresh-id counter per table. `Store.Valid` is its referential integrity:
  - records sit under their own id;
  - items and logs belong to an existing task;
  - a task's parent and origin item exist.
- **Specification functions.** Every service call that writes is a function from the store before the call to a `Step`, which holds the store after the commit and the call's result. A failing call (404 or 400) returns an `Err` and leaves the store unchanged.
- **The session.** The class `Sessions.Session` holds the same tables as fields and performs each call step by step, as the service code does:
  - the `setattr` loop over the dumped request (`Sessions.AssignAll`);
  - the bulk null-outs and deletes of the cascade;
  - the insert of a new row.

  Each session method is proved to land on the store its specification function describes, and to keep `Store.Valid`.
- **Read calls.** These are methods over a `Db`. They are built on `Query.Select`, an unordered scan, and `Query.SelectSorted`, a scan followed by an insertion sort. Their contracts say which rows come back: each matching record exactly once, and nothing else. Where the query has an `ORDER BY`, they also give the order. Ties and unordered scans may come back in any order, as in SQL.
- **Clocks.** The wall clock `now` and the local date `today` are parameters.
  - Dates are day numbers.
  - Timestamps are integer microseconds, the resolution of Python's `datetime`. This makes `timedelta.days` floor division by 86,400,000,000.

Two points need a note:

- **`create_task`'s parent check.** The code tests `if data.parent_id:`, which skips the lookup when the parent id is 0. Ids come from SQLite's integer primary key, which starts at 1, so 0 never names a task. The guard as written therefore lets a task point at a parent that does not exist (see Findings).
  - `TaskService.CreateTaskAsWritten` models the code as written.
  - `TaskService.CreateTask` and `Sessions.Session.CreateTask` model the corrected guard, and so do the lemmas built on them.
- **The delete cascade.** Its two bulk `UPDATE`s on `tasks` also set `last_updated_at`, because of the column's `onupdate` default.

## Model

| member | source | states |
|---|---|---|
| Domain.OrElse | backend/app/services/task_service.py:294-295 | Python `a or b` on an optional string: the given value when it is present and non-empty, otherwise the fallback |
| Query.Select | backend/app/services/task_service.py:135 | an unordered scan returns every record that passes the filter exactly once, and nothing else |
| Query.InsertKeepsOrder | backend/app/services/task_service.py:250 | inserting into an ascending list keeps it ascending |
| Query.InsertContents | backend/app/services/task_service.py:250 | inserting adds exactly that element to the list's contents |
| Query.SortBy | backend/app/services/task_service.py:250 | sorting by a key yields an ascending permutation of its input |
| Query.PermutationKeepsDistinct | backend/app/services/task_service.py:250 | reordering a duplicate-free list keeps it duplicate-free |
| Query.SelectSorted | backend/app/services/task_service.py:56 | a scan with `ORDER BY` returns the matching records exactly once, in ascending key order |
| Store.ItemsOf | backend/app/services/task_service.py:111 | the ids of the items of a task are exactly the item keys whose owner is that task |
| Store.Valid | backend/app/models/task.py:18-25 | the references the services maintain hold: an item's and a log's owning task, a task's parent and its origin item exist (an item's extracted task and a capture's related task may dangle, as the services leave them); in a valid store no row sits under the next id of its table |
| Updates.FoldAppend | backend/app/services/task_service.py:95-96 | applying two lists of assignments one after the other is applying their concatenation |
| Updates.FoldSnoc | backend/app/services/task_service.py:95-96 | one more loop iteration applies one more assignment |
| Updates.PatchedTask | backend/app/services/task_service.py:87-96 | a partial update never changes the id, the parent, the origin or the timestamps, and leaves the status alone when it is not sent |
| Updates.TaskDumpApplies | backend/app/services/task_service.py:87-96 | the `setattr` loop over `model_dump(exclude_unset=True)` changes exactly the sent fields of a task to the sent values |
| Updates.NamesApplies | backend/app/services/task_service.py:95-96 | the loop over title, type and category sets exactly those sent |
| Updates.PlanApplies | backend/app/services/task_service.py:95-96 | the loop over priority, status and due date sets exactly those sent |
| Updates.CriteriaApplies | backend/app/services/task_service.py:95-96 | the loop over the two criteria sets exactly those sent |
| Updates.LimitsApplies | backend/app/services/task_service.py:95-96 | the loop over reversibility and exploration limit sets exactly those sent |
| Updates.PatchedItem | backend/app/services/task_service.py:278-279 | a partial item update never changes its id, owner, position or extracted task |
| Updates.ItemDumpApplies | backend/app/services/task_service.py:278-279 | the item's `setattr` loop changes exactly the sent fields (done flag, text) |
| Updates.PatchedCapture | backend/app/services/capture_service.py:29-30 | a partial capture update never changes its id or creation time |
| Updates.CaptureDumpApplies | backend/app/services/capture_service.py:29-30 | the capture's `setattr` loop changes exactly the sent fields (text, resolved flag, related task) |
| TaskService.TaskOr404 | backend/app/services/task_service.py:23-27 | the task is returned iff its id is in the store, and NotFound otherwise |
| TaskService.ItemOr404 | backend/app/services/task_service.py:30-34 | the item is returned iff it exists and belongs to the given task, and NotFound otherwise |
| TaskService.GetTasks | backend/app/services/task_service.py:40-56 | exactly the tasks matching every given filter (status, type, priority, parent), each once, newest first |
| TaskService.GetTaskDetail | backend/app/services/task_service.py:59-72 | NotFound iff the task is missing; the origin is reported iff the origin id is truthy, its item exists and the item's task exists, and then it holds that task's id and title and the item's text |
| TaskService.CreateTask | backend/app/services/task_service.py:75-82 | with the corrected guard (see Findings): succeeds iff no parent is sent or the sent parent exists; a failure is NotFound and changes nothing |
| TaskService.CreateTaskAsWritten | backend/app/services/task_service.py:75-82 | succeeds iff the parent id is falsy (None or 0) or exists, as the `if data.parent_id:` guard is written |
| TaskService.UpdateTask | backend/app/services/task_service.py:85-100 | NotFound with no change iff the task is missing; any failure changes nothing and is NotFound or InvalidTransition |
| TaskService.DeleteTask | backend/app/services/task_service.py:103-127 | fails iff the task is missing, with NotFound and no change |
| TaskService.GetChildren | backend/app/services/task_service.py:133-135 | NotFound iff the task is missing; otherwise exactly the tasks whose parent is it, each once |
| TaskService.CreateChild | backend/app/services/task_service.py:138-146 | succeeds iff the parent exists; a failure is NotFound and changes nothing |
| TaskService.Blocking | backend/app/services/task_service.py:156 | the blocking items of a task are exactly its items that are not done and not extracted |
| TaskService.CompleteTask | backend/app/services/task_service.py:152-170 | NotFound with no change iff the task is missing; any failure changes nothing |
| TaskService.GetCompletionLogs | backend/app/services/task_service.py:173-180 | NotFound iff the task is missing; otherwise exactly its logs, each once, newest first |
| TaskService.GetConvergence | backend/app/services/task_service.py:186-216 | NotFound iff the task is missing; `exploration_used` is the number of the task's children |
| TaskService.DaysBetween | backend/app/services/task_service.py:233 | `timedelta.days`: the whole days elapsed, rounded down, so that d days ≤ now − last < d + 1 days |
| TaskService.GetStaleTasks | backend/app/services/task_service.py:222-239 | every row is a stored task that is active, matches the priority filter, has `last_updated_at` and is at least its threshold (7 must, 21 should) days old, with those day counts; every such task appears, and no task twice |
| TaskService.GetChecklist | backend/app/services/task_service.py:245-252 | NotFound iff the task is missing; otherwise exactly its items, each once, in ascending `order_no` |
| TaskService.CreateChecklistItem | backend/app/services/task_service.py:255-271 | succeeds iff the task exists; a failure is NotFound and changes nothing |
| TaskService.UpdateChecklistItem | backend/app/services/task_service.py:274-282 | succeeds iff the item exists under that task; a failure is NotFound and changes nothing |
| TaskService.ExtractChecklistItem | backend/app/services/task_service.py:285-317 | a failure changes nothing |
| TaskService.MatchesFilter | backend/app/services/task_service.py:48-55 | the empty filter passes every task; a task passing a parent filter has a parent |
| TaskService.NewTask | backend/app/services/task_service.py:78 | the new row takes the id, parent, title and priority it is given, starts as todo with no origin, and is created and touched at `now` |
| TaskService.AddTask | backend/app/services/task_service.py:79-80 | the task goes in under the next task id, every other table and row is kept, and the counter moves past it |
| TaskService.ParentGuard | backend/app/services/task_service.py:76-77 | the corrected guard passes only what the written guard passes, and a sent parent it passes exists |
| TaskService.ParentGuardAsWritten | backend/app/services/task_service.py:76-77 | a parent id of 0 always passes; any other sent parent id passes iff that task exists |
| TaskService.Detached | backend/app/services/task_service.py:107-115 | a detached task no longer has the deleted task as parent nor an origin among its items; kept references are the old ones; only the parent, the origin and the touch change |
| TaskService.Unlinked | backend/app/services/task_service.py:117-119 | an unlinked capture no longer points at the deleted task; a kept link is the old one; nothing else changes |
| TaskService.Threshold | backend/app/services/task_service.py:16 | the staleness threshold is 7 days for must and 21 for should |
| TaskService.DaysAtLeast | backend/app/services/task_service.py:233-234 | at least n whole days have passed iff the gap is at least n days of microseconds |
| TaskService.IsStale | backend/app/services/task_service.py:231-234 | a scanned task is stale iff it has a last update at least its threshold's days before `now` |
| TaskService.NextOrderNo | backend/app/services/task_service.py:257-265 | a given order number is used as it is; without one, the number is positive and larger than the task's item count |
| TaskService.ExtractedTask | backend/app/services/task_service.py:294-307 | the new task is a todo child of the parent that originates from the item; its title is the sent title or the item's text; a non-empty title gives non-empty done criteria |
| TaskProperties.CreateTaskEffect | backend/app/services/task_service.py:75-82 | a created task has a fresh id and the request's columns, status todo (models/task.py:16), no origin, both timestamps at now; it is the only change |
| TaskProperties.AddTaskKeepsValid | backend/app/services/task_service.py:79-80 | inserting a task whose parent and origin exist keeps referential integrity |
| TaskProperties.CreateTaskKeepsValid | backend/app/services/task_service.py:75-82 | `create_task` (with the corrected guard) keeps referential integrity |
| TaskProperties.CreateChildIsCreateTask | backend/app/services/task_service.py:138-146 | under an existing parent, `create_child` is `create_task` with the parent id replaced by the path's task id |
| TaskProperties.CreateChildEffect | backend/app/services/task_service.py:138-146 | the created child gets a fresh id, the path's task as parent and every other column from the request, todo with no origin, both timestamps `now`; nothing else changes |
| TaskProperties.CreateChildAddsOneChild | backend/app/services/task_service.py:138-146 | creating under a parent adds exactly one task to its children |
| TaskProperties.CreateChildKeepsValid | backend/app/services/task_service.py:138-146 | `create_child` keeps referential integrity |
| TaskProperties.DoneGuardIsStatusDone | backend/app/services/task_service.py:87-89 | the guard on the dumped request fires exactly when the request sends status done |
| TaskProperties.UpdateTaskEffect | backend/app/services/task_service.py:85-100 | an update of an existing task fails iff it sends status done, then with InvalidTransition and no change; otherwise exactly the sent fields change, `last_updated_at` becomes now, and nothing else in the store changes |
| TaskProperties.UpdateNeverCompletes | backend/app/services/task_service.py:89-93 | a successful update never moves a task into done |
| TaskProperties.UpdateTaskKeepsValid | backend/app/services/task_service.py:85-100 | `update_task` keeps referential integrity |
| TaskProperties.DeleteTaskEffect | backend/app/services/task_service.py:103-127 | after a delete: only that task is gone; no task has it as parent or an origin among its items; every other task changes exactly in the nulled parent or origin, and a task with a nulled reference gets `last_updated_at` = now; no capture points at it, and captures change only in that nulled link; exactly its items and logs are gone and the rest are kept |
| TaskProperties.DeleteKeepsExtractedLink | backend/app/services/task_service.py:106-126 | the cascade does not clear another task's item whose `extracted_task_id` is the deleted task |
| TaskProperties.DeleteTaskKeepsValid | backend/app/services/task_service.py:103-127 | `delete_task` keeps referential integrity: no dangling parent, origin, item or log |
| TaskProperties.CompletionGate | backend/app/services/task_service.py:155-161 | completing an existing task succeeds iff no item blocks it; otherwise ChecklistIncomplete with the blocking count (at least one), and no change |
| TaskProperties.CompleteTaskEffect | backend/app/services/task_service.py:163-170 | a successful completion marks the task done, touches it and appends exactly one log with its id, the note and now; nothing else changes |
| TaskProperties.CompleteTaskKeepsValid | backend/app/services/task_service.py:152-170 | `complete_task` keeps referential integrity |
| TaskProperties.CompletingTwiceLogsTwice | backend/app/services/task_service.py:152-170 | a task already done can be completed again and gets a second, distinct log |
| TaskProperties.CreateItemEffect | backend/app/services/task_service.py:255-271 | a new item is open and not extracted, at position count + 1 unless one is given, and is the only change |
| TaskProperties.AutoOrderCanCollide | backend/app/services/task_service.py:257-265 | counting rather than taking the maximum lets an automatic position repeat a given one (2 and then 2) |
| TaskProperties.CreateItemKeepsValid | backend/app/services/task_service.py:255-271 | `create_checklist_item` keeps referential integrity |
| TaskProperties.UpdateItemEffect | backend/app/services/task_service.py:274-282 | a found item changes in exactly the sent fields, and nothing else changes |
| TaskProperties.UpdateItemKeepsValid | backend/app/services/task_service.py:274-282 | `update_checklist_item` keeps referential integrity |
| TaskProperties.ExtractErrors | backend/app/services/task_service.py:288-292 | NotFound iff the task or the item is missing or the item belongs to another task; AlreadyExtracted iff the item is found and its `extracted_task_id` is truthy; a failure changes nothing |
| TaskProperties.ExtractEffect | backend/app/services/task_service.py:294-312 | success adds one child task, with the parent, the origin item, status todo, the title or the item text, the done criteria or the title, and the priority or the parent's; no category, decision criteria, reversible flag or exploration limit; both timestamps `now`; the item is marked done and points at it; nothing else changes |
| TaskProperties.ExtractKeepsValid | backend/app/services/task_service.py:285-317 | extraction keeps referential integrity |
| TaskProperties.ExtractTwiceFails | backend/app/services/task_service.py:291-292 | extracting the same item again fails with AlreadyExtracted and changes nothing |
| TaskProperties.ExtractUnblocks | backend/app/services/task_service.py:311-312 | extraction removes exactly that item from the blocking set |
| TaskProperties.ExtractThenOrigin | backend/app/services/task_service.py:59-72 | the detail of an extracted task resolves its origin to the parent and the item text |
| TaskProperties.ConvergenceChecklist | backend/app/services/task_service.py:188-216 | within limit iff no limit or used ≤ limit; simplified iff used ≤ 3; confirmed iff reversible is exactly true; convergeable iff all three; remaining is limit − used, or none; the task id, used count, exploration limit, reversible flag and decision criteria are echoed from the task |
| TaskProperties.ConvergeableHasBudget | backend/app/services/task_service.py:188-201 | a convergeable task has at most three children and a non-negative remaining budget |
| TaskProperties.ConvergenceExamples | backend/app/services/task_service.py:188-201 | limit 2 with three children is over the limit; unknown reversibility never converges |
| TaskProperties.CreateChildNeverConverges | backend/app/services/task_service.py:188-201 | adding a child never makes a non-convergeable task convergeable |
| TaskProperties.StaleExamples | backend/app/services/task_service.py:231-234 | seven days makes a must task stale and a microsecond less does not; six days does not make a should task stale; twenty-one days does, and a microsecond less does not |
| TaskProperties.NotStaleWhenInactive | backend/app/services/task_service.py:224-232 | a task never touched, or done, snoozed or a carryover candidate, is never stale |
| TaskProperties.ParentZeroDangles | backend/app/services/task_service.py:76-77 | with the guard as written, a parent id of 0 is accepted and leaves a task whose parent does not exist |
| TaskProperties.ParentGuardCorrected | backend/app/services/task_service.py:76-77 | the corrected guard refuses parent id 0 with NotFound, and agrees with the written guard on every other request |
| TaskProperties.NewTaskWithItem | backend/app/services/task_service.py:255-271 | a new task with one new item is blocked by exactly that item |
| TaskProperties.ExtractThenComplete | backend/app/services/task_service.py:152-170 | completing a task blocked by one item fails with count 1; after extracting the item (the child titled with its text) the task completes and gets a log |
| CarryoverService.IsCandidate | backend/app/services/carryover_service.py:13-16 | a candidate is not done and has a due date at least one day before today |
| CarryoverService.ShiftedDue | backend/app/services/carryover_service.py:35-40 | the new due date lies the given number of days after the old due date, or after today when there was none |
| CarryoverService.Rescheduled | backend/app/services/carryover_service.py:31-43 | needs_redefine sets that status and keeps the due date; every other policy sets todo and a due date; nothing else changes |
| CarryoverService.GetCarryoverCandidates | backend/app/services/carryover_service.py:11-24 | every row is a stored task with status todo or doing and a due date strictly before today, with `overdue_days` = today − due ≥ 1; every such task appears, and none twice |
| CarryoverService.DoCarryover | backend/app/services/carryover_service.py:27-48 | fails iff the task is missing, with NotFound and no change |
| CarryoverService.CarryoverEffect | backend/app/services/carryover_service.py:31-45 | today: due today and todo; plus_2d/plus_7d: due (or today) + 2/7 and todo; needs_redefine: status changes and due is kept; always `last_updated_at` = now; no other column or row changes |
| CarryoverService.TodayOrRedefineClearsCandidate | backend/app/services/carryover_service.py:31-43 | after today or needs_redefine the task is no longer a candidate |
| CarryoverService.ShortShiftMayStayCandidate | backend/app/services/carryover_service.py:34-37 | a todo task more than two days overdue is still a candidate after plus_2d |
| CarryoverService.CarryoverNeverCompletes | backend/app/services/carryover_service.py:31-43 | after any action the task is todo or needs redefinition, and a shifted due date moves later |
| CarryoverService.DoCarryoverKeepsValid | backend/app/services/carryover_service.py:27-48 | `do_carryover` keeps referential integrity |
| CaptureService.WithResolved | backend/app/services/capture_service.py:12-13 | no flag keeps every capture; a flag keeps exactly the captures whose resolved state equals it |
| CaptureService.GetCaptures | backend/app/services/capture_service.py:10-14 | exactly the captures with the given resolved flag (all of them without one), each once, newest first |
| CaptureService.CreateCapture | backend/app/services/capture_service.py:17-22 | creating a capture always succeeds |
| CaptureService.UpdateCapture | backend/app/services/capture_service.py:25-33 | succeeds iff the capture exists; a failure is NotFound and changes nothing |
| CaptureService.DeleteCapture | backend/app/services/capture_service.py:36-41 | succeeds iff the capture exists; a failure is NotFound and changes nothing |
| CaptureService.CreateCaptureAddsOne | backend/app/services/capture_service.py:17-22 | exactly one capture is added, under a fresh id, with the request's text and task link, unresolved, created at `now`; every other capture and table is kept |
| CaptureService.UpdateCaptureChangesOnlySent | backend/app/services/capture_service.py:25-33 | a found capture changes in exactly the sent fields, and nothing else changes |
| CaptureService.DeleteCaptureRemovesOne | backend/app/services/capture_service.py:36-41 | exactly that capture is removed; the others and the other tables are kept |
| CaptureService.CaptureOpsKeepValid | backend/app/services/capture_service.py:17-41 | the capture operations keep referential integrity |
| Lists.FindIndex | frontend/app/stores/taskStore.ts:9 | `findIndex`: the first position holding the id, or −1 iff no element has it |
| Lists.Filter | frontend/app/stores/taskStore.ts:15 | `filter`: only passing elements, and every passing element, are kept |
| Lists.FilterAppend | frontend/app/stores/taskStore.ts:15 | filtering distributes over concatenation, so kept elements keep their relative order |
| Lists.FilterKeepsAll | frontend/app/stores/taskStore.ts:15 | a list whose elements all pass is kept as it is |
| Lists.FilterIdempotent | frontend/app/stores/taskStore.ts:15 | removing twice is removing once |
| Lists.RemoveAbsentIsNoOp | frontend/app/stores/taskStore.ts:15 | removing an id that no element has changes nothing |
| Lists.FilterPartition | frontend/app/stores/captureStore.ts:6-7 | complementary filters split the list: their sizes add up to its size |
| Lists.UpsertReplaces | frontend/app/stores/taskStore.ts:9-10 | with the id present, the first element holding it is replaced in place; the length and every other position are kept |
| Lists.UpsertPrepends | frontend/app/stores/taskStore.ts:11 | with the id absent, the element goes first and the rest follow in order |
| Lists.Upserted | frontend/app/stores/taskStore.ts:8-12 | the element is in the result, and the list keeps its length or grows by one |
| Lists.UpsertIdempotent | frontend/app/stores/taskStore.ts:8-12 | upserting the same element twice is upserting it once |
| Lists.FilterSkips | frontend/app/stores/taskStore.ts:15 | an element that fails the test drops out of the middle of the list |
| Lists.RemoveAfterUpsert | frontend/app/stores/taskStore.ts:8-16 | removing an id after upserting it gives what removing it straight away gives |
| TaskStores.TaskStore.constructor | frontend/app/stores/taskStore.ts:5-6 | the store starts with no tasks and no current task |
| TaskStores.TaskStore.Upsert | frontend/app/stores/taskStore.ts:8-12 | the list becomes the upsert of the task; the current task is untouched |
| TaskStores.TaskStore.Remove | frontend/app/stores/taskStore.ts:14-16 | the list becomes its filter by other ids; no element has the id; the current task is untouched |
| TaskStores.TaskStore.SetAll | frontend/app/stores/taskStore.ts:18-20 | the list becomes the given one; the current task is untouched |
| CaptureStores.CaptureStore.constructor | frontend/app/stores/captureStore.ts:5 | the store starts empty |
| CaptureStores.CaptureStore.Unresolved | frontend/app/stores/captureStore.ts:6 | exactly the items that are not resolved |
| CaptureStores.CaptureStore.Resolved | frontend/app/stores/captureStore.ts:7 | exactly the items that are resolved |
| CaptureStores.CaptureStore.ViewsPartition | frontend/app/stores/captureStore.ts:6-7 | the two views' sizes add up to the number of items |
| CaptureStores.CaptureStore.SetAll | frontend/app/stores/captureStore.ts:9-11 | the items become the given list |
| CaptureStores.CaptureStore.Upsert | frontend/app/stores/captureStore.ts:13-17 | the items become the upsert of the capture |
| CaptureStores.CaptureStore.Remove | frontend/app/stores/captureStore.ts:19-21 | the items become their filter by other ids; no item has the id |
| CarryoverStores.CarryoverStore.constructor | frontend/app/stores/carryoverStore.ts:5 | the store starts with no candidates |
| CarryoverStores.CarryoverStore.SetAll | frontend/app/stores/carryoverStore.ts:7-9 | the candidates become the given list |
| CarryoverStores.CarryoverStore.RemoveCandidate | frontend/app/stores/carryoverStore.ts:11-13 | the candidates become their filter by other ids; none has the id; the list never grows |
| Sessions.AssignAll | backend/app/services/task_service.py:95-96 | the `setattr` loop over the dumped updates yields the fold of the assignments over the row |
| Sessions.NullParents | backend/app/services/task_service.py:107-109 | the bulk update keeps every row; afterwards no task has the deleted task as parent, and a task that had another parent is unchanged |
| Sessions.NullOrigins | backend/app/services/task_service.py:111-115 | the bulk update keeps every row and every parent; afterwards no task's origin is among the deleted task's items |
| Sessions.CascadeDetaches | backend/app/services/task_service.py:107-126 | the two bulk updates (the second only when the task has items), followed by the delete, detach every other task exactly as the cascade's specification says |
| Sessions.CascadeMatches | backend/app/services/task_service.py:107-127 | the cascade's statements, in the service's order, produce exactly the store `TaskService.DeleteTask` describes |
| Sessions.Session.constructor | backend/alembic/versions/001_create_initial_tables.py:17-19 | a new session holds the empty store, which is valid |
| Sessions.Session.InsertTask | backend/app/services/task_service.py:79-80 | `db.add` and the commit put the row under the next task id |
| Sessions.Session.CreateTask | backend/app/services/task_service.py:75-82 | the session lands on `TaskService.CreateTask` of the old store, and stays valid |
| Sessions.Session.UpdateTask | backend/app/services/task_service.py:85-100 | the guard, the `setattr` loop and the touch land on `TaskService.UpdateTask`; the store stays valid |
| Sessions.Session.DeleteTask | backend/app/services/task_service.py:103-127 | the cascade, run step by step, lands on `TaskService.DeleteTask`; the store stays valid |
| Sessions.Session.CreateChild | backend/app/services/task_service.py:138-146 | lands on `TaskService.CreateChild`; the store stays valid |
| Sessions.Session.CompleteTask | backend/app/services/task_service.py:152-170 | the gate, the status change and the log insert land on `TaskService.CompleteTask`; the store stays valid |
| Sessions.Session.CreateChecklistItem | backend/app/services/task_service.py:255-271 | the count and the insert land on `TaskService.CreateChecklistItem`; the store stays valid |
| Sessions.Session.UpdateChecklistItem | backend/app/services/task_service.py:274-282 | the `setattr` loop lands on `TaskService.UpdateChecklistItem`; the store stays valid |
| Sessions.Session.ExtractChecklistItem | backend/app/services/task_service.py:285-317 | the insert, the flush and the two item assignments land on `TaskService.ExtractChecklistItem`; the store stays valid |
| Sessions.Session.DoCarryover | backend/app/services/carryover_service.py:27-48 | the four branches and the touch land on `CarryoverService.DoCarryover`; the store stays valid |
| Sessions.Session.CreateCapture | backend/app/services/capture_service.py:17-22 | lands on `CaptureService.CreateCapture`; the store stays valid |
| Sessions.Session.UpdateCapture | backend/app/services/capture_service.py:25-33 | the `setattr` loop lands on `CaptureService.UpdateCapture`; the store stays valid |
| Sessions.Session.DeleteCapture | backend/app/services/capture_service.py:36-41 | lands on `CaptureService.DeleteCapture`; the store stays valid |

## Left out

- HTTP routing, status codes and messages: the 404 and 400 `HTTPException`s are the typed errors `NotFound`, `InvalidTransition`, `ChecklistIncomplete(n)` and `AlreadyExtracted`.
- The ORM itself: `commit`, `refresh`, `flush` and relationship loading become map updates. Each call is one atomic step, so there is no concurrency and no transaction isolation.
- Wall-clock reads (`datetime.utcnow()`, `date.today()`, the server's `func.now()`) are parameters.
  - `complete_task` reads the clock twice; the model uses one `now` for the status touch and the log.
  - The server default `func.now()` has second precision; the model uses the same `now` for it.
- Foreign-key enforcement: the models declare foreign keys on every reference, and the configured database is SQLite (`sqlite:///./tasks.db` in backend/app/core/config.py:5, and an SQLite engine with no `PRAGMA foreign_keys` in backend/tests/conftest.py:14-15). The session set-up that could turn enforcement on is not part of this model, and nothing in the files modelled here does; the model takes SQLite's default, under which none of the foreign keys is enforced. `Store.Valid` is what the services themselves maintain, not a database constraint; a reference the services leave dangling (an item's extracted task after a delete, a capture's related task) is accepted, as in the backend.
- Id allocation: SQLite may reuse the largest rowid after a delete. The model hands out ids from a counter that only grows. With reuse, a dangling `extracted_task_id` left by a delete (see TaskProperties.DeleteKeepsExtractedLink) could come to point at a new task that took the deleted id; the growing counter rules this out.
- An explicit `null` sent for a NOT NULL column in a partial update fails with a database integrity error. The model's update requests carry only values the columns accept.
- Date arithmetic past 9999-12-31 raises `OverflowError` in Python; day numbers in the model are unbounded.
- The staleness threshold's fallback of 21 for an unknown priority is unreachable: priority is one of must and should.
- `get_task_detail`'s children and checklist are added by the API layer, which is not part of this model; the model returns the task and its origin.
- The frontend stores hold references: `setAll` stores the caller's array (aliasing), and `currentTask` holds a `TaskDetail`. The model stores values and uses the task datatype for the current task.
- The frontend composables, repositories and the frontend staleness helper are I/O and UI and are not part of this model; the backend rule covers staleness.
- TaskService.CompleteTask: its own contract gives only the missing-task case and that a failure changes nothing. The gate and the effect are stated by TaskProperties.CompletionGate and TaskProperties.CompleteTaskEffect.
- TaskService.ExtractChecklistItem: its own contract says only that a failure changes nothing. The errors and the effect are stated by TaskProperties.ExtractErrors and TaskProperties.ExtractEffect.
- TaskService.UpdateTask: its own contract gives only the error cases, including NotFound iff the task is missing. The effect is stated by TaskProperties.UpdateTaskEffect.

## Findings

| source | as written | input that shows it | evidently intended | confidence | as-written member | corrected member |
|---|---|---|---|---|---|---|
| backend/app/services/task_service.py:76-77 | `if data.parent_id:` checks the parent only when the id is truthy, so 0 is never looked up | create a task with `parent_id = 0` in any store: it is accepted, and the new task's parent does not exist (ids start at 1) | a sent parent id must name an existing task (`is not None`), so 0 fails with 404 | not executed | TaskProperties.ParentZeroDangles | TaskProperties.ParentGuardCorrected |
