/** The frontend's task list store: the loaded tasks and the task on screen. */
module TaskStores {
  import opened Domain
  import Lists

  class TaskStore {
    var tasks: seq<Task>
    /** The detail view's task; the list operations leave it alone. */
    var currentTask: Option<Task>

    constructor ()
      ensures tasks == [] && currentTask.None?
    {
      tasks := [];
      currentTask := None;
    }

    /** Replaces the first task with the same id where it stands, or puts the task first. */
    method Upsert(task: Task)
      modifies this
      ensures tasks == Lists.Upserted(old(tasks), task, TaskId)
      ensures currentTask == old(currentTask)
    {
      var idx := Lists.FindIndex(tasks, TaskId, task.id);
      if idx >= 0 {
        tasks := tasks[idx := task];
      } else {
        tasks := [task] + tasks;
      }
    }

    method Remove(id: int)
      modifies this
      ensures tasks == Lists.Filter(old(tasks), Lists.Other(TaskId, id))
      ensures forall i :: 0 <= i < |tasks| ==> tasks[i].id != id
      ensures currentTask == old(currentTask)
    {
      tasks := Lists.Filter(tasks, Lists.Other(TaskId, id));
    }

    method SetAll(list: seq<Task>)
      modifies this
      ensures tasks == list
      ensures currentTask == old(currentTask)
    {
      tasks := list;
    }
  }
}

/** The frontend's capture store, with its unresolved and resolved views. */
module CaptureStores {
  import opened Domain
  import Lists

  function IsOpen(c: CaptureItem): bool {
    !c.isResolved
  }

  function IsResolved(c: CaptureItem): bool {
    c.isResolved
  }

  class CaptureStore {
    var items: seq<CaptureItem>

    constructor ()
      ensures items == []
    {
      items := [];
    }

    /** The unresolved captures, in list order. */
    function Unresolved(): (r: seq<CaptureItem>)
      reads this
      ensures forall i :: 0 <= i < |r| ==> r[i] in items && !r[i].isResolved
      ensures forall i :: 0 <= i < |items| && !items[i].isResolved ==> items[i] in r
    {
      Lists.Filter(items, IsOpen)
    }

    /** The resolved captures, in list order. */
    function Resolved(): (r: seq<CaptureItem>)
      reads this
      ensures forall i :: 0 <= i < |r| ==> r[i] in items && r[i].isResolved
      ensures forall i :: 0 <= i < |items| && items[i].isResolved ==> items[i] in r
    {
      Lists.Filter(items, IsResolved)
    }

    /** The two views split the list: their sizes add up to its size. */
    lemma ViewsPartition()
      ensures |Unresolved()| + |Resolved()| == |items|
    {
      Lists.FilterPartition(items, IsOpen, IsResolved);
    }

    method SetAll(list: seq<CaptureItem>)
      modifies this
      ensures items == list
    {
      items := list;
    }

    /** Replaces the first capture with the same id where it stands, or puts the capture first. */
    method Upsert(item: CaptureItem)
      modifies this
      ensures items == Lists.Upserted(old(items), item, CaptureId)
    {
      var idx := Lists.FindIndex(items, CaptureId, item.id);
      if idx >= 0 {
        items := items[idx := item];
      } else {
        items := [item] + items;
      }
    }

    method Remove(id: int)
      modifies this
      ensures items == Lists.Filter(old(items), Lists.Other(CaptureId, id))
      ensures forall i :: 0 <= i < |items| ==> items[i].id != id
    {
      items := Lists.Filter(items, Lists.Other(CaptureId, id));
    }
  }
}

/** The frontend's carryover store: the candidates shown for rescheduling. */
module CarryoverStores {
  import CarryoverService
  import Lists

  function CandidateId(c: CarryoverService.CandidateRow): int {
    c.task.id
  }

  class CarryoverStore {
    var candidates: seq<CarryoverService.CandidateRow>

    constructor ()
      ensures candidates == []
    {
      candidates := [];
    }

    method SetAll(list: seq<CarryoverService.CandidateRow>)
      modifies this
      ensures candidates == list
    {
      candidates := list;
    }

    /** Drops the candidate with that id (after it was rescheduled). */
    method RemoveCandidate(id: int)
      modifies this
      ensures candidates == Lists.Filter(old(candidates), Lists.Other(CandidateId, id))
      ensures forall i :: 0 <= i < |candidates| ==> candidates[i].task.id != id
      ensures |candidates| <= |old(candidates)|
    {
      candidates := Lists.Filter(candidates, Lists.Other(CandidateId, id));
    }
  }
}
