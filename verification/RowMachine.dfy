/**
 The life of a row of `workflow_status`: every transaction that inserts, changes or removes rows,
 in any order, and what all of them keep.
 */
module RowMachine {
  import opened Wrappers
  import opened Tables
  import opened StatusTable
  import opened Fork
  import opened Queue

  datatype Change =
    | Start(input: InsertInput, maxRetries: int, recovery: bool)
    | Enqueue(input: InsertInput, maxRetries: int)
    | Finish(id: Id, result: Result<string, string>, now: int)
    | Cancel(ids: set<Id>, now: int)
    | Resume(ids: set<Id>, queue: string, now: int)
    | Delete(ids: set<Id>)
    | CollectGarbage(cutoff: Option<int>)
    | Clear(id: Id)
    | Promote(now: int)
    | ForkAt(fork: ForkInput)
    | Dequeue(request: DequeueInput, gate: int, now: int, claimed: seq<Id>)

  ghost predicate Changes(c: Change, db: Db, db': Db) {
    match c
    case Start(input, m, recovery) =>
      IsStartRow(input.row) && input.increment == (if recovery then 1 else 0) && db' == InsertStatus(db, input, m).0
    case Enqueue(input, m) => IsEnqueueRow(input.row) && input.increment == 0 && db' == InsertStatus(db, input, m).0
    case Finish(id, result, now) => db' == UpdateRows(db, {id}, row => FinishRow(row, result, now))
    case Cancel(ids, now) => db' == UpdateRows(db, ids, row => CancelRow(row, now))
    case Resume(ids, queue, now) => db' == UpdateRows(db, ids, row => ResumeRow(row, queue, now))
    case Delete(ids) => db' == DeleteRows(db, ids)
    case CollectGarbage(cutoff) => db' == Collect(db, cutoff)
    case Clear(id) => db' == UpdateRows(db, {id}, ClearRow)
    case Promote(now) => db' == UpdateRows(db, db.Keys, row => PromoteRow(row, now))
    case ForkAt(fork) => fork.original in db && fork.forked !in db && db' == ForkTx(db, fork)
    case Dequeue(request, gate, now, claimed) => gate <= now && Dequeued(db, request, gate, now, claimed, db')
  }

  // ---- one row --------------------------------------------------------------------------------------

  predicate Claims(c: Change, row: Row, row': Row) {
    c.Dequeue? && IsEligible(row, c.request) && row' == ClaimRow(row, c.request, c.now)
  }

  /** Everything a change does to a row that stays. */
  predicate RowMoves(c: Change, row: Row, row': Row) {
    || row' == row
    || Claims(c, row, row')
    || match c
       case Start(input, _, _) => row' == Touch(row, input) || row' == DeadLetter(Touch(row, input))
       case Enqueue(input, _) => row' == Touch(row, input) || row' == DeadLetter(Touch(row, input))
       case Finish(_, result, now) => row' == FinishRow(row, result, now)
       case Cancel(_, now) => row' == CancelRow(row, now)
       case Resume(_, queue, now) => row' == ResumeRow(row, queue, now)
       case Clear(_) => row' == ClearRow(row)
       case Promote(now) => row' == PromoteRow(row, now)
       case ForkAt(_) => row' == row.(wasForkedFrom := true)
       case _ => false
  }

  /** Everything a change inserts. */
  ghost predicate RowEnters(c: Change, db: Db, row: Row) {
    match c
    case Start(input, _, _) => row == input.row && IsStartRow(row)
    case Enqueue(input, _) => row == input.row && IsEnqueueRow(row)
    case ForkAt(fork) => fork.original in db && row == ForkRow(db[fork.original].row, fork)
    case _ => false
  }

  lemma InsertMoves(db: Db, input: InsertInput, maxRetries: int, id: Id)
    requires id in InsertStatus(db, input, maxRetries).0
    ensures var row' := InsertStatus(db, input, maxRetries).0[id].row;
      if id in db
      then row' == db[id].row || row' == Touch(db[id].row, input) || row' == DeadLetter(Touch(db[id].row, input))
      else id == input.id && (row' == input.row || row' == DeadLetter(input.row))
  {
  }

  /** A row that starts with at most one attempt is not dead-lettered by its own insert. */
  lemma FreshIsAlive(db: Db, input: InsertInput, maxRetries: int)
    requires input.id !in db && input.id in InsertStatus(db, input, maxRetries).0 && input.row.attempts <= 1
    ensures InsertStatus(db, input, maxRetries).0 == db[input.id := Unstarted(input.row)]
    ensures InsertStatus(db, input, maxRetries).1
         == Touched(input.row.attempts, input.row.status, input.row.owner, false)
  {
  }

  lemma ChangeMoves(c: Change, db: Db, db': Db, id: Id)
    requires Changes(c, db, db') && id in db'
    ensures if id in db then RowMoves(c, db[id].row, db'[id].row) else RowEnters(c, db, db'[id].row)
  {
    match c
    case Start(input, m, _) =>
      InsertMoves(db, input, m, id);
      if id !in db { FreshIsAlive(db, input, m); }
    case Enqueue(input, m) =>
      InsertMoves(db, input, m, id);
      if id !in db { FreshIsAlive(db, input, m); }
    case Dequeue(request, _, now, claimed) =>
      assert id in claimed ==> id in Eligible(db, request);
    case _ =>
  }

  // ---- row invariants -------------------------------------------------------------------------------

  predicate Finished(s: Status) {
    Settled(s) || s.Cancelled?
  }

  predicate Active(s: Status) {
    Waiting(s) || s.Pending?
  }

  predicate RowOk(row: Row) {
    && (Waiting(row.status) ==> row.queue.Some? && row.startedAt.None?)
    && (row.status.Delayed? ==> row.delayUntil.Some?)
    && (row.completedAt.Some? <==> Finished(row.status))
    && (row.output.Some? <==> row.status.Success?)
    && (row.error.Some? <==> row.status.Error?)
    && (row.startedAt.Some? ==> row.queue.Some? && (row.status.Pending? || Settled(row.status)))
    && (row.status.Pending? && row.queue.Some? ==> row.startedAt.Some?)
    && (row.dedup.Some? ==> row.queue.Some? && Active(row.status))
  }

  lemma TouchKeepsOk(row: Row, input: InsertInput)
    requires RowOk(row)
    ensures RowOk(Touch(row, input)) && RowOk(DeadLetter(Touch(row, input)))
  {
  }

  lemma EndKeepsOk(row: Row, result: Result<string, string>, queue: string, now: int)
    requires RowOk(row)
    ensures RowOk(FinishRow(row, result, now)) && RowOk(CancelRow(row, now)) && RowOk(ResumeRow(row, queue, now))
  {
  }

  lemma RowMovesKeepOk(c: Change, row: Row, row': Row)
    requires RowOk(row) && RowMoves(c, row, row')
    ensures RowOk(row')
  {
    match c
    case Start(input, _, _) => TouchKeepsOk(row, input);
    case Enqueue(input, _) => TouchKeepsOk(row, input);
    case Finish(_, result, now) => EndKeepsOk(row, result, "", now);
    case Cancel(_, now) => EndKeepsOk(row, Ok(""), "", now);
    case Resume(_, queue, now) => EndKeepsOk(row, Ok(""), queue, now);
    case _ =>
  }

  /** Which change may take a status to which. */
  predicate MayMove(c: Change, s: Status, s': Status) {
    || s' == s
    || match c
       case Start(_, _, _) => s.Pending? && s'.DeadLettered?
       case Enqueue(_, _) => s.Pending? && s'.DeadLettered?
       case Finish(_, result, _) => !s.Cancelled? && s' == (if result.Ok? then Success else Error)
       case Cancel(_, _) => !Finished(s) && s'.Cancelled?
       case Resume(_, _, _) => !Settled(s) && s'.Enqueued?
       case Clear(_) => s.Pending? && s'.Enqueued?
       case Promote(_) => s.Delayed? && s'.Enqueued?
       case Dequeue(_, _, _, _) => s.Enqueued? && s'.Pending?
       case _ => false
  }

  lemma StatusMoves(c: Change, db: Db, db': Db, id: Id)
    requires Changes(c, db, db') && id in db && id in db'
    ensures MayMove(c, db[id].row.status, db'[id].row.status)
  {
    ChangeMoves(c, db, db', id);
  }

  ghost predicate SameDedup(a: Row, b: Row) {
    a.dedup.Some? && a.queue.Some? && a.queue == b.queue && a.dedup == b.dedup
  }

  /** The unique index holds: at most one row per queue and deduplication id. */
  ghost predicate DedupOnce(db: Db) {
    forall u, v :: u in db && v in db && SameDedup(db[u].row, db[v].row) ==> u == v
  }

  ghost predicate DbOk(db: Db) {
    (forall id :: id in db ==> RowOk(db[id].row)) && DedupOnce(db)
  }

  /** No change makes a row that stays share a deduplication id it did not share before. */
  lemma DedupMoves(c: Change, row: Row, row': Row)
    requires RowMoves(c, row, row') && row'.dedup.Some?
    ensures row'.dedup == row.dedup && row'.queue == row.queue
  {
  }

  lemma InsertDedup(c: Change, db: Db, db': Db, u: Id, v: Id)
    requires Changes(c, db, db') && u in db' && u !in db && v in db && v in db' && DbOk(db)
    ensures !SameDedup(db'[u].row, db'[v].row)
  {
    ChangeMoves(c, db, db', u);
    ChangeMoves(c, db, db', v);
    if SameDedup(db'[u].row, db'[v].row) {
      DedupMoves(c, db[v].row, db'[v].row);
    }
  }

  /** At most one row enters at a time. */
  lemma OneEnters(c: Change, db: Db, db': Db, u: Id, v: Id)
    requires Changes(c, db, db') && u in db' && u !in db && v in db' && v !in db
    ensures u == v
  {
    match c
    case Start(input, m, _) => InsertMoves(db, input, m, u); InsertMoves(db, input, m, v);
    case Enqueue(input, m) => InsertMoves(db, input, m, u); InsertMoves(db, input, m, v);
    case _ =>
  }

  lemma DbStaysOk(c: Change, db: Db, db': Db)
    requires DbOk(db) && Changes(c, db, db')
    ensures DbOk(db')
  {
    forall id | id in db' ensures RowOk(db'[id].row) {
      ChangeMoves(c, db, db', id);
      if id in db {
        RowMovesKeepOk(c, db[id].row, db'[id].row);
      }
    }
    forall u, v | u in db' && v in db' && SameDedup(db'[u].row, db'[v].row) ensures u == v {
      if u in db && v in db {
        ChangeMoves(c, db, db', u);
        ChangeMoves(c, db, db', v);
        DedupMoves(c, db[u].row, db'[u].row);
        DedupMoves(c, db[v].row, db'[v].row);
        assert SameDedup(db[u].row, db[v].row);
      } else if u in db {
        InsertDedup(c, db, db', v, u);
      } else if v in db {
        InsertDedup(c, db, db', u, v);
      } else {
        OneEnters(c, db, db', u, v);
      }
    }
  }
}
