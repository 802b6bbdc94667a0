/**
 Transactions on `workflow_status`: insert-or-touch with dead-lettering, outcomes, cancel,
 resume, recovery and retention, each as a function from the database before to the database after.
 */
module StatusTable {
  import opened Wrappers
  import opened Tables

  /** `row` is what a fresh insert stores; `increment` is added to the attempts of an existing row. */
  datatype InsertInput = InsertInput(id: Id, row: Row, increment: int)

  datatype InsertOutcome =
    | Touched(attempts: int, status: Status, owner: Option<string>, deadLettered: bool)
    | NameConflict
    | QueueConflict
    | Deduplicated

  predicate Waiting(s: Status) {
    s.Enqueued? || s.Delayed?
  }

  predicate Settled(s: Status) {
    s.Success? || s.Error?
  }

  /** ON CONFLICT (workflow_uuid) DO UPDATE. */
  function Touch(row: Row, input: InsertInput): Row {
    row.(attempts := if Waiting(input.row.status) then row.attempts else row.attempts + input.increment,
         updatedAt := input.row.updatedAt,
         executor := if Waiting(input.row.status) then row.executor else input.row.executor)
  }

  predicate Exhausted(row: Row, maxRetries: int) {
    !Settled(row.status) && maxRetries > 0 && row.attempts > maxRetries + 1
  }

  function DeadLetter(row: Row): Row {
    if row.status.Pending?
    then row.(status := DeadLettered, dedup := None, startedAt := None, queue := None)
    else row
  }

  /** The partial unique index on (queue_name, deduplication_id). */
  predicate DedupTaken(db: Db, row: Row) {
    row.dedup.Some? && row.queue.Some? &&
    exists id :: id in db && db[id].row.queue == row.queue && db[id].row.dedup == row.dedup
  }

  function InsertStatus(db: Db, input: InsertInput, maxRetries: int): (Db, InsertOutcome) {
    if input.id !in db && DedupTaken(db, input.row) then (db, Deduplicated)
    else
      var x := if input.id in db then db[input.id].(row := Touch(db[input.id].row, input)) else Unstarted(input.row);
      if input.row.name != "" && x.row.name != input.row.name then (db, NameConflict)
      else if input.row.queue.Some? && x.row.queue.Some? && x.row.queue != input.row.queue then (db, QueueConflict)
      else
        var out := Touched(x.row.attempts, x.row.status, x.row.owner, Exhausted(x.row, maxRetries));
        (db[input.id := if out.deadLettered then x.(row := DeadLetter(x.row)) else x], out)
  }

  /** `start_workflow` runs the body unless the row is settled or belongs to another start. */
  predicate RunsBody(out: InsertOutcome, owner: Option<string>, recovery: bool) {
    out.Touched? && !out.deadLettered && !Settled(out.status) && (recovery || out.owner == owner)
  }

  /** What `start_workflow` inserts: a PENDING row outside any queue. */
  predicate IsStartRow(row: Row) {
    && row.status.Pending? && row.queue.None? && row.dedup.None? && row.attempts == 1
    && row.startedAt.None? && row.completedAt.None? && row.output.None? && row.error.None?
    && !row.rateLimited && row.owner.Some? && row.forkedFrom.None?
  }

  /** What `enqueue_workflow` inserts: an ENQUEUED or DELAYED row of a queue. */
  predicate IsEnqueueRow(row: Row) {
    && Waiting(row.status) && row.queue.Some? && row.attempts == 0
    && (row.status.Delayed? <==> row.delayUntil.Some?)
    && row.startedAt.None? && row.completedAt.None? && row.output.None? && row.error.None?
    && !row.rateLimited && row.owner.Some? && row.forkedFrom.None?
  }

  /** What a finished body writes. */
  function FinishRow(row: Row, result: Result<string, string>, now: int): Row {
    match result
    case Ok(output) => OutcomeRow(row, Success, Some(output), None, now)
    case Err(error) => OutcomeRow(row, Error, None, Some(error), now)
  }

  function OutcomeRow(row: Row, status: Status, output: Option<string>, error: Option<string>, now: int): Row {
    if row.status.Cancelled? && Settled(status) then row
    else row.(status := status, output := output, error := error, updatedAt := now,
              completedAt := Some(now), dedup := None)
  }

  function CancelRow(row: Row, now: int): Row {
    if Settled(row.status) || row.status.Cancelled? then row
    else row.(status := Cancelled, updatedAt := now, completedAt := Some(now), startedAt := None,
              queue := None, dedup := None)
  }

  function ResumeRow(row: Row, queue: string, now: int): Row {
    if Settled(row.status) then row
    else row.(status := Enqueued, queue := Some(queue), attempts := 0, deadline := None, dedup := None,
              startedAt := None, updatedAt := now, completedAt := None)
  }

  /** `clear_queue_assignment`: recovery pushes a claimed row back to its queue. */
  function ClearRow(row: Row): Row {
    if row.queue.Some? && row.status.Pending? then row.(status := Enqueued, startedAt := None) else row
  }

  function PromoteRow(row: Row, now: int): Row {
    if row.status.Delayed? && row.delayUntil.Some? && row.delayUntil.value <= now
    then row.(status := Enqueued) else row
  }

  /** UPDATE workflow_status SET row = f(row) WHERE workflow_uuid = ANY(ids). */
  function UpdateRows(db: Db, ids: set<Id>, f: Row -> Row): (db': Db) {
    map id | id in db :: if id in ids then db[id].(row := f(db[id].row)) else db[id]
  }

  function DeleteRows(db: Db, ids: set<Id>): Db {
    db - ids
  }

  /** Rows `garbage_collect` removes. */
  predicate Collectable(row: Row, cutoff: int) {
    row.createdAt < cutoff && !row.status.Pending? && !Waiting(row.status)
  }

  /** The more recent of the two bounds; None collects nothing. */
  function EffectiveCutoff(cutoff: Option<int>, rowsCutoff: Option<int>): Option<int> {
    match (cutoff, rowsCutoff)
    case (_, None) => cutoff
    case (None, Some(r)) => Some(r)
    case (Some(c), Some(r)) => Some(if c < r then r else c)
  }

  function Collect(db: Db, cutoff: Option<int>): Db {
    if cutoff.None? then db
    else map id | id in db && !Collectable(db[id].row, cutoff.value) :: db[id]
  }

  /** The rows a freshly launched executor recovers. */
  predicate Recoverable(row: Row, executors: set<string>, version: string) {
    row.status.Pending? && row.executor.Some? && row.executor.value in executors && row.version == Some(version)
  }

  /** The columns that no transaction changes. */
  predicate SameIdentity(row: Row, row': Row) {
    row.name == row'.name && row.inputs == row'.inputs && row.forkedFrom == row'.forkedFrom
  }

  /** A transaction that leaves every checkpoint of `x` alone. */
  predicate SameTables(x: Workflow, y: Workflow) {
    && x.ops == y.ops && x.history == y.history && x.events == y.events && x.streams == y.streams
    && SameIdentity(x.row, y.row)
  }
}
