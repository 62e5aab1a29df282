/** The capture service: quick notes, optionally linked to a task, kept by id
    with a resolved flag. Keyed create, read, update and delete; a missing id
    is NotFound and changes nothing. */
module CaptureService {
  import opened Domain
  import opened Store
  import opened Updates
  import Query

  /** `is_resolved` given: only captures with that value; left out: all of them. */
  function WithResolved(isResolved: Option<bool>): (keep: CaptureItem -> bool)
    ensures isResolved.None? ==> forall c :: keep(c)
    ensures isResolved.Some? ==> forall c :: keep(c) <==> c.isResolved == isResolved.value
  {
    (c: CaptureItem) => isResolved.None? || c.isResolved == isResolved.value
  }

  /** Sort key for `created_at DESC`. */
  function NewestCaptureFirst(c: CaptureItem): int {
    -c.createdAt
  }

  method GetCaptures(db: Db, isResolved: Option<bool>) returns (rows: seq<CaptureItem>)
    requires Valid(db)
    ensures Query.Lists(db.captures, CaptureId, WithResolved(isResolved), rows)
    ensures Query.Ascending(rows, NewestCaptureFirst)
  {
    rows := Query.SelectSorted(db.captures, CaptureId, WithResolved(isResolved), NewestCaptureFirst);
  }

  /** A new capture is unresolved and created at `now`. */
  function CreateCapture(db: Db, req: CaptureCreate, now: Timestamp): (s: Step<CaptureItem>)
    ensures s.result.Ok?
  {
    var c := CaptureItem(db.nextCaptureId, req.relatedTaskId, req.text, now, false);
    Step(db.(captures := db.captures[db.nextCaptureId := c], nextCaptureId := db.nextCaptureId + 1), Ok(c))
  }

  function UpdateCapture(db: Db, id: int, req: CaptureUpdate): (s: Step<CaptureItem>)
    ensures s.result.Ok? <==> id in db.captures
    ensures s.result.Err? ==> s.db == db && s.result.error == NotFound
  {
    if id !in db.captures then Step(db, Err(NotFound))
    else
      var c := Fold(db.captures[id], DumpCapture(req), AssignCapture);
      Step(db.(captures := db.captures[id := c]), Ok(c))
  }

  function DeleteCapture(db: Db, id: int): (s: Step<()>)
    ensures s.result.Ok? <==> id in db.captures
    ensures s.result.Err? ==> s.db == db && s.result.error == NotFound
  {
    if id !in db.captures then Step(db, Err(NotFound))
    else Step(db.(captures := db.captures - {id}), Ok(()))
  }

  // ── Properties ──────────────────────────────────────────────────────────

  /** Creating adds exactly one capture, under a fresh id, with the request's
      text and task link; every existing capture and every other table is kept. */
  lemma CreateCaptureAddsOne(db: Db, req: CaptureCreate, now: Timestamp)
    requires Valid(db)
    ensures var s := CreateCapture(db, req, now);
      var c := s.result.value;
      && c.id !in db.captures
      && s.db.captures == db.captures[c.id := c]
      && |s.db.captures| == |db.captures| + 1
      && c.text == req.text && c.relatedTaskId == req.relatedTaskId && !c.isResolved && c.createdAt == now
      && s.db.tasks == db.tasks && s.db.items == db.items && s.db.logs == db.logs
  {
    var s := CreateCapture(db, req, now);
    assert db.nextCaptureId !in db.captures;
  }

  /** A found capture changes in exactly the sent fields; nothing else changes. */
  lemma UpdateCaptureChangesOnlySent(db: Db, id: int, req: CaptureUpdate)
    requires id in db.captures
    ensures var s := UpdateCapture(db, id, req);
      && s.result == Ok(PatchedCapture(db.captures[id], req))
      && s.db == db.(captures := db.captures[id := PatchedCapture(db.captures[id], req)])
  {
    CaptureDumpApplies(db.captures[id], req);
  }

  /** Deleting removes exactly that capture and keeps the others intact. */
  lemma DeleteCaptureRemovesOne(db: Db, id: int)
    requires id in db.captures
    ensures var s := DeleteCapture(db, id);
      && id !in s.db.captures
      && |s.db.captures| == |db.captures| - 1
      && (forall k :: k in db.captures && k != id ==> k in s.db.captures && s.db.captures[k] == db.captures[k])
      && s.db.tasks == db.tasks && s.db.items == db.items && s.db.logs == db.logs
  {
  }

  lemma CaptureOpsKeepValid(db: Db, id: int, create: CaptureCreate, update: CaptureUpdate, now: Timestamp)
    requires Valid(db)
    ensures Valid(CreateCapture(db, create, now).db)
    ensures Valid(UpdateCapture(db, id, update).db)
    ensures Valid(DeleteCapture(db, id).db)
  {
    if id in db.captures {
      UpdateCaptureChangesOnlySent(db, id, update);
    }
  }
}
