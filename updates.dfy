/** Partial updates as the backend performs them: the request is dumped to
    the list of the fields that were sent (in declaration order), and each
    entry is assigned onto the record in turn. `Patched*` states the intended
    meaning independently (a sent field takes its value, every other column
    keeps its own), and the `*DumpApplies` lemmas connect the two. */
module Updates {
  import opened Domain

  /** Assigning a list of entries one after the other. */
  function Fold<R, F>(r: R, fs: seq<F>, assign: (R, F) -> R): R
    decreases |fs|
  {
    if fs == [] then r else assign(Fold(r, fs[..|fs| - 1], assign), fs[|fs| - 1])
  }

  lemma {:induction false} FoldAppend<R, F>(r: R, a: seq<F>, b: seq<F>, assign: (R, F) -> R)
    ensures Fold(r, a + b, assign) == Fold(Fold(r, a, assign), b, assign)
    decreases |b|
  {
    if b == [] {
      assert a + b == a;
    } else {
      assert (a + b)[..|a + b| - 1] == a + b[..|b| - 1];
      FoldAppend(r, a, b[..|b| - 1], assign);
    }
  }

  lemma FoldSnoc<R, F>(r: R, fs: seq<F>, i: nat, assign: (R, F) -> R)
    requires i < |fs|
    ensures Fold(r, fs[..i + 1], assign) == assign(Fold(r, fs[..i], assign), fs[i])
  {
    assert fs[..i + 1][..i] == fs[..i];
  }

  // ── Task ────────────────────────────────────────────────────────────────

  /** One `key: value` entry of a dumped task update. */
  datatype TaskField =
    | SetTitle(title: string)
    | SetTaskType(taskType: TaskType)
    | SetCategory(category: Option<string>)
    | SetPriority(priority: Priority)
    | SetStatus(status: TaskStatus)
    | SetDueDate(dueDate: Option<Day>)
    | SetDoneCriteria(doneCriteria: string)
    | SetDecisionCriteria(decisionCriteria: Option<string>)
    | SetReversible(reversible: Option<bool>)
    | SetExplorationLimit(explorationLimit: Option<int>)

  /** `setattr(task, key, value)` for one entry. */
  function AssignTask(t: Task, f: TaskField): Task {
    match f
    case SetTitle(v) => t.(title := v)
    case SetTaskType(v) => t.(taskType := v)
    case SetCategory(v) => t.(category := v)
    case SetPriority(v) => t.(priority := v)
    case SetStatus(v) => t.(status := v)
    case SetDueDate(v) => t.(dueDate := v)
    case SetDoneCriteria(v) => t.(doneCriteria := v)
    case SetDecisionCriteria(v) => t.(decisionCriteria := v)
    case SetReversible(v) => t.(reversible := v)
    case SetExplorationLimit(v) => t.(explorationLimit := v)
  }

  /** `model_dump(exclude_unset=True)` of a task update: the sent fields in
      declaration order, written in four groups to keep the proofs small. */
  function DumpTask(u: TaskUpdate): seq<TaskField> {
    DumpNames(u) + DumpPlan(u) + DumpCriteria(u) + DumpLimits(u)
  }

  function DumpNames(u: TaskUpdate): seq<TaskField> {
    (if u.title.Set? then [SetTitle(u.title.value)] else [])
    + (if u.taskType.Set? then [SetTaskType(u.taskType.value)] else [])
    + (if u.category.Set? then [SetCategory(u.category.value)] else [])
  }

  function DumpPlan(u: TaskUpdate): seq<TaskField> {
    (if u.priority.Set? then [SetPriority(u.priority.value)] else [])
    + (if u.status.Set? then [SetStatus(u.status.value)] else [])
    + (if u.dueDate.Set? then [SetDueDate(u.dueDate.value)] else [])
  }

  function DumpCriteria(u: TaskUpdate): seq<TaskField> {
    (if u.doneCriteria.Set? then [SetDoneCriteria(u.doneCriteria.value)] else [])
    + (if u.decisionCriteria.Set? then [SetDecisionCriteria(u.decisionCriteria.value)] else [])
  }

  function DumpLimits(u: TaskUpdate): seq<TaskField> {
    (if u.reversible.Set? then [SetReversible(u.reversible.value)] else [])
    + (if u.explorationLimit.Set? then [SetExplorationLimit(u.explorationLimit.value)] else [])
  }

  /** The promised effect of a partial task update. Id, parent, origin item
      and both timestamps are not fields of the request. */
  function PatchedTask(t: Task, u: TaskUpdate): (r: Task)
    ensures r.id == t.id && r.parentId == t.parentId && r.originItemId == t.originItemId
    ensures r.createdAt == t.createdAt && r.lastUpdatedAt == t.lastUpdatedAt
    ensures u.status.Unset? ==> r.status == t.status
  {
    t.(title := u.title.Or(t.title),
       taskType := u.taskType.Or(t.taskType),
       category := u.category.Or(t.category),
       priority := u.priority.Or(t.priority),
       status := u.status.Or(t.status),
       dueDate := u.dueDate.Or(t.dueDate),
       doneCriteria := u.doneCriteria.Or(t.doneCriteria),
       decisionCriteria := u.decisionCriteria.Or(t.decisionCriteria),
       reversible := u.reversible.Or(t.reversible),
       explorationLimit := u.explorationLimit.Or(t.explorationLimit))
  }

  /** Assigning a one-or-no-entry piece. */
  lemma FoldPiece<R, F>(r: R, p: seq<F>, assign: (R, F) -> R)
    requires |p| <= 1
    ensures Fold(r, p, assign) == if p == [] then r else assign(r, p[0])
  {
    if p != [] {
      assert p[..0] == [];
    }
  }

  /** One more dumped piece on top of an already assigned prefix. */
  lemma FoldStep<R, F>(r: R, q: seq<F>, p: seq<F>, assign: (R, F) -> R, before: R, after: R)
    requires Fold(r, q, assign) == before
    requires |p| <= 1
    requires after == if p == [] then before else assign(before, p[0])
    ensures Fold(r, q + p, assign) == after
  {
    FoldAppend(r, q, p, assign);
    FoldPiece(before, p, assign);
  }

  /** The setattr loop over the dumped request gives the promised partial update. */
  lemma TaskDumpApplies(t: Task, u: TaskUpdate)
    ensures Fold(t, DumpTask(u), AssignTask) == PatchedTask(t, u)
  {
    var a, b, c, d := DumpNames(u), DumpPlan(u), DumpCriteria(u), DumpLimits(u);
    NamesApplies(t, u);
    var ta := Fold(t, a, AssignTask);
    PlanApplies(ta, u);
    FoldAppend(t, a, b, AssignTask);
    var tb := Fold(ta, b, AssignTask);
    CriteriaApplies(tb, u);
    FoldAppend(t, a + b, c, AssignTask);
    var tc := Fold(tb, c, AssignTask);
    LimitsApplies(tc, u);
    FoldAppend(t, a + b + c, d, AssignTask);
  }

  lemma NamesApplies(t: Task, u: TaskUpdate)
    ensures Fold(t, DumpNames(u), AssignTask) == t.(title := u.title.Or(t.title), taskType := u.taskType.Or(t.taskType), category := u.category.Or(t.category))
  {
    var p0 := if u.title.Set? then [SetTitle(u.title.value)] else [];
    var t0 := t.(title := u.title.Or(t.title));
    assert [] + p0 == p0;
    FoldStep(t, [], p0, AssignTask, t, t0);
    var p1 := if u.taskType.Set? then [SetTaskType(u.taskType.value)] else [];
    var t1 := t0.(taskType := u.taskType.Or(t0.taskType));
    FoldStep(t, p0, p1, AssignTask, t0, t1);
    var p2 := if u.category.Set? then [SetCategory(u.category.value)] else [];
    var t2 := t1.(category := u.category.Or(t1.category));
    FoldStep(t, p0 + p1, p2, AssignTask, t1, t2);
  }

  lemma PlanApplies(t: Task, u: TaskUpdate)
    ensures Fold(t, DumpPlan(u), AssignTask) == t.(priority := u.priority.Or(t.priority), status := u.status.Or(t.status), dueDate := u.dueDate.Or(t.dueDate))
  {
    var p0 := if u.priority.Set? then [SetPriority(u.priority.value)] else [];
    var t0 := t.(priority := u.priority.Or(t.priority));
    assert [] + p0 == p0;
    FoldStep(t, [], p0, AssignTask, t, t0);
    var p1 := if u.status.Set? then [SetStatus(u.status.value)] else [];
    var t1 := t0.(status := u.status.Or(t0.status));
    FoldStep(t, p0, p1, AssignTask, t0, t1);
    var p2 := if u.dueDate.Set? then [SetDueDate(u.dueDate.value)] else [];
    var t2 := t1.(dueDate := u.dueDate.Or(t1.dueDate));
    FoldStep(t, p0 + p1, p2, AssignTask, t1, t2);
  }

  lemma CriteriaApplies(t: Task, u: TaskUpdate)
    ensures Fold(t, DumpCriteria(u), AssignTask) == t.(doneCriteria := u.doneCriteria.Or(t.doneCriteria), decisionCriteria := u.decisionCriteria.Or(t.decisionCriteria))
  {
    var p0 := if u.doneCriteria.Set? then [SetDoneCriteria(u.doneCriteria.value)] else [];
    var t0 := t.(doneCriteria := u.doneCriteria.Or(t.doneCriteria));
    assert [] + p0 == p0;
    FoldStep(t, [], p0, AssignTask, t, t0);
    var p1 := if u.decisionCriteria.Set? then [SetDecisionCriteria(u.decisionCriteria.value)] else [];
    var t1 := t0.(decisionCriteria := u.decisionCriteria.Or(t0.decisionCriteria));
    FoldStep(t, p0, p1, AssignTask, t0, t1);
  }

  lemma LimitsApplies(t: Task, u: TaskUpdate)
    ensures Fold(t, DumpLimits(u), AssignTask) == t.(reversible := u.reversible.Or(t.reversible), explorationLimit := u.explorationLimit.Or(t.explorationLimit))
  {
    var p0 := if u.reversible.Set? then [SetReversible(u.reversible.value)] else [];
    var t0 := t.(reversible := u.reversible.Or(t.reversible));
    assert [] + p0 == p0;
    FoldStep(t, [], p0, AssignTask, t, t0);
    var p1 := if u.explorationLimit.Set? then [SetExplorationLimit(u.explorationLimit.value)] else [];
    var t1 := t0.(explorationLimit := u.explorationLimit.Or(t0.explorationLimit));
    FoldStep(t, p0, p1, AssignTask, t0, t1);
  }

  // ── Checklist item ──────────────────────────────────────────────────────

  datatype ItemField = SetDone(isDone: bool) | SetText(text: string)

  function AssignItem(i: ChecklistItem, f: ItemField): ChecklistItem {
    match f
    case SetDone(v) => i.(isDone := v)
    case SetText(v) => i.(text := v)
  }

  function DumpItem(u: ItemUpdate): seq<ItemField> {
    (if u.isDone.Set? then [SetDone(u.isDone.value)] else [])
    + (if u.text.Set? then [SetText(u.text.value)] else [])
  }

  function PatchedItem(i: ChecklistItem, u: ItemUpdate): (r: ChecklistItem)
    ensures r.id == i.id && r.taskId == i.taskId && r.orderNo == i.orderNo
    ensures r.extractedTaskId == i.extractedTaskId
  {
    i.(isDone := u.isDone.Or(i.isDone), text := u.text.Or(i.text))
  }

  lemma ItemDumpApplies(i: ChecklistItem, u: ItemUpdate)
    ensures Fold(i, DumpItem(u), AssignItem) == PatchedItem(i, u)
  {
    var p0 := if u.isDone.Set? then [SetDone(u.isDone.value)] else [];
    var p1 := if u.text.Set? then [SetText(u.text.value)] else [];
    FoldPiece(i, p0, AssignItem);
    FoldPiece(Fold(i, p0, AssignItem), p1, AssignItem);
    FoldAppend(i, p0, p1, AssignItem);
  }

  // ── Capture ─────────────────────────────────────────────────────────────

  datatype CaptureField = SetNote(text: string) | SetResolved(isResolved: bool) | SetRelatedTask(relatedTaskId: Option<int>)

  function AssignCapture(c: CaptureItem, f: CaptureField): CaptureItem {
    match f
    case SetNote(v) => c.(text := v)
    case SetResolved(v) => c.(isResolved := v)
    case SetRelatedTask(v) => c.(relatedTaskId := v)
  }

  function DumpCapture(u: CaptureUpdate): seq<CaptureField> {
    (if u.text.Set? then [SetNote(u.text.value)] else [])
    + (if u.isResolved.Set? then [SetResolved(u.isResolved.value)] else [])
    + (if u.relatedTaskId.Set? then [SetRelatedTask(u.relatedTaskId.value)] else [])
  }

  function PatchedCapture(c: CaptureItem, u: CaptureUpdate): (r: CaptureItem)
    ensures r.id == c.id && r.createdAt == c.createdAt
  {
    c.(text := u.text.Or(c.text),
       isResolved := u.isResolved.Or(c.isResolved),
       relatedTaskId := u.relatedTaskId.Or(c.relatedTaskId))
  }

  lemma CaptureDumpApplies(c: CaptureItem, u: CaptureUpdate)
    ensures Fold(c, DumpCapture(u), AssignCapture) == PatchedCapture(c, u)
  {
    var p0 := if u.text.Set? then [SetNote(u.text.value)] else [];
    var p1 := if u.isResolved.Set? then [SetResolved(u.isResolved.value)] else [];
    var p2 := if u.relatedTaskId.Set? then [SetRelatedTask(u.relatedTaskId.value)] else [];
    var c0 := Fold(c, p0, AssignCapture);
    FoldPiece(c, p0, AssignCapture);
    var c1 := Fold(c0, p1, AssignCapture);
    FoldPiece(c0, p1, AssignCapture);
    FoldAppend(c, p0, p1, AssignCapture);
    FoldPiece(c1, p2, AssignCapture);
    FoldAppend(c, p0 + p1, p2, AssignCapture);
  }
}
