/** The carryover service: finding active tasks whose due date has passed,
    and rescheduling one of them by one of four policies. Dates are day
    numbers, so a shift by whole days is integer addition. "Today" (the
    server's local date) and "now" (its UTC clock) are parameters. */
module CarryoverService {
  import opened Domain
  import opened Store
  import Query

  /** Overdue and still open: status todo or doing, with a due date strictly
      before today (a missing due date is never overdue). */
  predicate IsCandidate(t: Task, today: Day): (r: bool)
    ensures r ==> t.status != Done && t.dueDate.Some? && today - t.dueDate.value >= 1
  {
    && (t.status == Todo || t.status == Doing)
    && t.dueDate.Some?
    && t.dueDate.value < today
  }

  function Candidate(today: Day): Task -> bool {
    t => IsCandidate(t, today)
  }

  /** The task's columns plus the number of whole days it is overdue. */
  datatype CandidateRow = CandidateRow(task: Task, overdueDays: int)

  /** Every candidate exactly once, each at least one day overdue. */
  method GetCarryoverCandidates(db: Db, today: Day) returns (rows: seq<CandidateRow>)
    requires Valid(db)
    ensures forall r :: r in rows ==>
      && r.task.id in db.tasks && db.tasks[r.task.id] == r.task
      && IsCandidate(r.task, today)
      && r.overdueDays == today - r.task.dueDate.value
      && r.overdueDays >= 1
    ensures forall k :: k in db.tasks && IsCandidate(db.tasks[k], today) ==>
      exists r :: r in rows && r.task == db.tasks[k]
    ensures forall i, j :: 0 <= i < j < |rows| ==> rows[i].task.id != rows[j].task.id
  {
    var tasks := Query.Select(db.tasks, TaskId, Candidate(today));
    forall j | 0 <= j < |tasks|
      ensures IsCandidate(tasks[j], today) && db.tasks[TaskId(tasks[j])] == tasks[j]
    {
      assert tasks[j] in tasks && Candidate(today)(tasks[j]);
    }
    rows := [];
    for i := 0 to |tasks|
      invariant |rows| == i
      invariant forall j :: 0 <= j < i ==> rows[j] == CandidateRow(tasks[j], today - tasks[j].dueDate.value)
    {
      rows := rows + [CandidateRow(tasks[i], today - tasks[i].dueDate.value)];
    }
    forall i, j | 0 <= i < j < |rows| ensures rows[i].task.id != rows[j].task.id {
      assert tasks[i] != tasks[j];
    }
    forall k | k in db.tasks && IsCandidate(db.tasks[k], today)
      ensures exists r :: r in rows && r.task == db.tasks[k]
    {
      assert Candidate(today)(db.tasks[k]);
      var j :| 0 <= j < |tasks| && tasks[j] == db.tasks[k];
      assert rows[j].task == db.tasks[k];
    }
  }

  /** `(due_date or today) + days`: a task without a due date is shifted from today. */
  function ShiftedDue(due: Option<Day>, today: Day, days: int): (r: Day)
    ensures due.Some? ==> r - due.value == days
    ensures due.None? ==> r - today == days
  {
    due.GetOr(today) + days
  }

  /** The task after `action`, before `last_updated_at` is touched. */
  function Rescheduled(t: Task, action: CarryoverAction, today: Day): (r: Task)
    ensures r.status == (if action == MarkNeedsRedefine then NeedsRedefine else Todo)
    ensures action == MarkNeedsRedefine ==> r.dueDate == t.dueDate
    ensures action != MarkNeedsRedefine ==> r.dueDate.Some?
    ensures r.(dueDate := t.dueDate, status := t.status) == t
  {
    match action
    case MoveToToday => t.(dueDate := Some(today), status := Todo)
    case AddTwoDays => t.(dueDate := Some(ShiftedDue(t.dueDate, today, 2)), status := Todo)
    case AddSevenDays => t.(dueDate := Some(ShiftedDue(t.dueDate, today, 7)), status := Todo)
    case MarkNeedsRedefine => t.(status := NeedsRedefine)
  }

  function DoCarryover(db: Db, id: int, action: CarryoverAction, today: Day, now: Timestamp): (s: Step<Task>)
    ensures s.result.Err? <==> id !in db.tasks
    ensures s.result.Err? ==> s.db == db && s.result.error == NotFound
  {
    if id !in db.tasks then Step(db, Err(NotFound))
    else
      var t := Rescheduled(db.tasks[id], action, today).(lastUpdatedAt := Some(now));
      Step(db.(tasks := db.tasks[id := t]), Ok(t))
  }

  // ── Properties ──────────────────────────────────────────────────────────

  /** Each policy's effect on the due date and the status; every other column
      but `last_updated_at` keeps its value, and no other row changes. */
  lemma CarryoverEffect(db: Db, id: int, action: CarryoverAction, today: Day, now: Timestamp)
    requires id in db.tasks
    ensures var s := DoCarryover(db, id, action, today, now);
      var t := db.tasks[id];
      && s.result.Ok?
      && var t' := s.result.value;
      && s.db == db.(tasks := db.tasks[id := t'])
      && t'.lastUpdatedAt == Some(now)
      && (action == MoveToToday ==> t'.dueDate == Some(today) && t'.status == Todo)
      && (action == AddTwoDays && t.dueDate.Some? ==> t'.dueDate == Some(t.dueDate.value + 2) && t'.status == Todo)
      && (action == AddSevenDays && t.dueDate.Some? ==> t'.dueDate == Some(t.dueDate.value + 7) && t'.status == Todo)
      && (action in {AddTwoDays, AddSevenDays} && t.dueDate.None? ==>
            t'.dueDate == Some(today + (if action == AddTwoDays then 2 else 7)) && t'.status == Todo)
      && (action == MarkNeedsRedefine ==> t'.dueDate == t.dueDate && t'.status == NeedsRedefine)
      && t'.(dueDate := t.dueDate, status := t.status, lastUpdatedAt := t.lastUpdatedAt) == t
  {
  }

  /** Moving a task to today, or sending it back for redefinition, takes it
      off the candidate list. */
  lemma TodayOrRedefineClearsCandidate(db: Db, id: int, action: CarryoverAction, today: Day, now: Timestamp)
    requires id in db.tasks
    requires action == MoveToToday || action == MarkNeedsRedefine
    ensures var s := DoCarryover(db, id, action, today, now);
      s.result.Ok? && !IsCandidate(s.db.tasks[id], today)
  {
  }

  /** Moving by two days is not enough for a task more than two days overdue:
      it stays a candidate. */
  lemma ShortShiftMayStayCandidate(db: Db, id: int, today: Day, now: Timestamp)
    requires id in db.tasks
    requires db.tasks[id].status == Todo
    requires db.tasks[id].dueDate.Some? && db.tasks[id].dueDate.value < today - 2
    ensures var s := DoCarryover(db, id, AddTwoDays, today, now);
      s.result.Ok? && IsCandidate(s.db.tasks[id], today)
  {
  }

  /** After any policy the task is open again or awaits redefinition; a task
      shifted by days is due no earlier than before. */
  lemma CarryoverNeverCompletes(db: Db, id: int, action: CarryoverAction, today: Day, now: Timestamp)
    requires id in db.tasks
    ensures var s := DoCarryover(db, id, action, today, now);
      && s.result.Ok?
      && (s.result.value.status == Todo || s.result.value.status == NeedsRedefine)
      && (action in {AddTwoDays, AddSevenDays} && db.tasks[id].dueDate.Some? ==>
            s.result.value.dueDate.value > db.tasks[id].dueDate.value)
  {
  }

  lemma DoCarryoverKeepsValid(db: Db, id: int, action: CarryoverAction, today: Day, now: Timestamp)
    requires Valid(db)
    ensures Valid(DoCarryover(db, id, action, today, now).db)
  {
    if id in db.tasks {
      var s := DoCarryover(db, id, action, today, now);
      assert s.db.tasks.Keys == db.tasks.Keys;
      forall k | k in s.db.tasks
        ensures s.db.tasks[k].parentId == db.tasks[k].parentId
        ensures s.db.tasks[k].originItemId == db.tasks[k].originItemId
        ensures s.db.tasks[k].id == db.tasks[k].id
      {
      }
    }
  }
}
