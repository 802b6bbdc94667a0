/** What holds of workflow rows over whole runs: invariants, bounded execution, and the replay engine's frame. */
module RowTheorems {
  import opened Tables
  import opened StatusTable
  import opened Fork
  import opened RowMachine
  import Replay

  /** Observed of one row since it was inserted: whether a fresh start inserted it, and how often its body was
      started fresh, and by fresh starts and recoveries since the last resume. */
  datatype Tally = Tally(born: bool, first: nat, runs: nat)

  /** `owners` holds the start tokens used so far; it and `tallies` observe the run. */
  datatype Book = Book(db: Db, tallies: map<Id, Tally>, owners: set<string>)

  predicate UsesToken(c: Change) {
    c.Start? || c.Enqueue?
  }

  /** A start decides whether to run the body; a resume of an unfinished row starts a new count. */
  function Tallied(b: Book, c: Change, id: Id): Tally {
    var t := if id in b.db && id in b.tallies then b.tallies[id] else Tally(c.Start? && !c.recovery, 0, 0);
    match c
    case Start(input, m, recovery) =>
      if id == input.id && RunsBody(InsertStatus(b.db, input, m).1, input.row.owner, recovery)
      then Tally(t.born, t.first + (if recovery then 0 else 1), t.runs + 1) else t
    case Resume(ids, _, _) => if id in ids && id in b.db && !Settled(b.db[id].row.status) then t.(runs := 0) else t
    case _ => t
  }

  ghost predicate Step(b: Book, c: Change, b': Book) {
    && Changes(c, b.db, b'.db)
    && (UsesToken(c) ==> c.input.row.owner.value !in b.owners)
    && b'.owners == b.owners + (if UsesToken(c) then {c.input.row.owner.value} else {})
    && b'.tallies == map id | id in b'.db :: Tallied(b, c, id)
  }

  ghost predicate Run(bs: seq<Book>, cs: seq<Change>) {
    && |bs| == |cs| + 1 && bs[0] == Book(map[], map[], {})
    && forall i :: 0 <= i < |cs| ==> Step(bs[i], cs[i], bs[i + 1])
  }

  // ---- invariants -------------------------------------------------------------------------------------

  /** Bodies started fresh: once for a row a fresh start inserted, never for another. */
  ghost predicate TallyOk(b: Book, id: Id)
    requires id in b.db
  {
    && id in b.tallies
    && b.tallies[id].first == (if b.tallies[id].born then 1 else 0)
    && b.tallies[id].runs <= b.db[id].row.attempts
    && (b.db[id].row.owner.Some? ==> b.db[id].row.owner.value in b.owners)
  }

  ghost predicate BookOk(b: Book) {
    DbOk(b.db) && forall id :: id in b.db ==> TallyOk(b, id)
  }

  lemma AttemptsMove(c: Change, row: Row, row': Row)
    requires RowMoves(c, row, row')
    ensures row'.owner == row.owner
    ensures UsesToken(c) && c.input.increment >= 0 ==> row'.attempts >= row.attempts
    ensures c.Resume? && !Settled(row.status) ==> row'.attempts >= 0 || row' == row
    ensures !UsesToken(c) && !c.Resume? ==> row'.attempts == row.attempts
    ensures c.Resume? && Settled(row.status) ==> row' == row
  {
  }

  lemma NewTally(b: Book, c: Change, b': Book, id: Id)
    requires Step(b, c, b') && id in b'.db && id !in b.db
    ensures TallyOk(b', id)
  {
    match c
    case Start(input, m, _) =>
      InsertMoves(b.db, input, m, id);
      FreshIsAlive(b.db, input, m);
    case Enqueue(input, m) =>
      InsertMoves(b.db, input, m, id);
      FreshIsAlive(b.db, input, m);
    case _ =>
  }

  /** A start that decides to run the body of an existing row is a recovery, and counts one more attempt. */
  lemma RunsAreRecoveries(b: Book, c: Change, b': Book)
    requires Step(b, c, b') && c.Start? && c.input.id in b.db && TallyOk(b, c.input.id)
    requires RunsBody(InsertStatus(b.db, c.input, c.maxRetries).1, c.input.row.owner, c.recovery)
    ensures c.recovery && c.input.id in b'.db
    ensures b'.db[c.input.id].row.attempts == b.db[c.input.id].row.attempts + 1
    ensures c.maxRetries > 0 ==> b'.db[c.input.id].row.attempts <= c.maxRetries + 1
  {
  }

  lemma OldTally(b: Book, c: Change, b': Book, id: Id)
    requires Step(b, c, b') && id in b'.db && id in b.db && TallyOk(b, id)
    ensures TallyOk(b', id)
  {
    ChangeMoves(c, b.db, b'.db, id);
    AttemptsMove(c, b.db[id].row, b'.db[id].row);
    if c.Start? && id == c.input.id
      && RunsBody(InsertStatus(b.db, c.input, c.maxRetries).1, c.input.row.owner, c.recovery) {
      RunsAreRecoveries(b, c, b');
    }
    if c.Resume? {
      assert id in c.ids ==> b'.db[id].row == ResumeRow(b.db[id].row, c.queue, c.now);
    }
  }

  lemma BookStays(b: Book, c: Change, b': Book)
    requires BookOk(b) && Step(b, c, b')
    ensures BookOk(b')
  {
    DbStaysOk(c, b.db, b'.db);
    forall id | id in b'.db ensures TallyOk(b', id) {
      if id in b.db {
        OldTally(b, c, b', id);
      } else {
        NewTally(b, c, b', id);
      }
    }
  }

  lemma {:induction false} RunKeeps(bs: seq<Book>, cs: seq<Change>, i: nat)
    requires Run(bs, cs) && i < |bs|
    ensures BookOk(bs[i])
  {
    if i > 0 {
      RunKeeps(bs, cs, i - 1);
      assert Step(bs[i - 1], cs[i - 1], bs[i]);
      BookStays(bs[i - 1], cs[i - 1], bs[i]);
    }
  }

  // ---- theorems -----------------------------------------------------------------------------------------

  /** The row invariants hold in every reachable state. */
  lemma RowsAlwaysOk(bs: seq<Book>, cs: seq<Change>, i: nat, id: Id)
    requires Run(bs, cs) && i < |bs| && id in bs[i].db
    ensures RowOk(bs[i].db[id].row) && DedupOnce(bs[i].db)
  {
    RunKeeps(bs, cs, i);
  }

  /** While the row exists, its body has been started fresh exactly once if a fresh start inserted it, and
      never otherwise, however many starts used the same id. */
  lemma FreshRunsOnce(bs: seq<Book>, cs: seq<Change>, i: nat, id: Id)
    requires Run(bs, cs) && i < |bs| && id in bs[i].db
    ensures id in bs[i].tallies && bs[i].tallies[id].first == if bs[i].tallies[id].born then 1 else 0
  {
    RunKeeps(bs, cs, i);
    assert TallyOk(bs[i], id);
  }

  /** Every start of workflow `id` is given the limit `m`. */
  ghost predicate LimitedTo(cs: seq<Change>, id: Id, m: int) {
    forall k :: 0 <= k < |cs| && cs[k].Start? && cs[k].input.id == id ==> cs[k].maxRetries == m
  }

  ghost predicate Bounded(b: Book, id: Id, m: int) {
    BookOk(b) && (id in b.db ==> id in b.tallies && b.tallies[id].runs <= m + 1)
  }

  lemma RunsStayBounded(b: Book, c: Change, b': Book, id: Id, m: int)
    requires Step(b, c, b') && BookOk(b) && BookOk(b') && id in b.db && id in b'.db && m > 0
    requires id in b.tallies && b.tallies[id].runs <= m + 1
    requires c.Start? && c.input.id == id ==> c.maxRetries == m
    ensures id in b'.tallies && b'.tallies[id].runs <= m + 1
  {
    assert TallyOk(b, id) && TallyOk(b', id);
    if c.Start? && id == c.input.id && RunsBody(InsertStatus(b.db, c.input, m).1, c.input.row.owner, c.recovery) {
      RunsAreRecoveries(b, c, b');
    }
  }

  lemma RunsBegin(b: Book, c: Change, b': Book, id: Id)
    requires Step(b, c, b') && id !in b.db && id in b'.db
    ensures id in b'.tallies && b'.tallies[id].runs <= 1
  {
  }

  lemma BoundedNext(b: Book, c: Change, b': Book, id: Id, m: int)
    requires Step(b, c, b') && Bounded(b, id, m) && m > 0 && (c.Start? && c.input.id == id ==> c.maxRetries == m)
    ensures Bounded(b', id, m)
  {
    BookStays(b, c, b');
    if id in b'.db {
      if id in b.db {
        RunsStayBounded(b, c, b', id, m);
      } else {
        RunsBegin(b, c, b', id);
      }
    }
  }

  lemma {:induction false} RunBounded(bs: seq<Book>, cs: seq<Change>, i: nat, id: Id, m: int)
    requires Run(bs, cs) && i < |bs| && LimitedTo(cs, id, m) && m > 0
    ensures Bounded(bs[i], id, m)
  {
    if i > 0 {
      RunBounded(bs, cs, i - 1, id, m);
      BoundedNext(bs[i - 1], cs[i - 1], bs[i], id, m);
    }
  }

  /** Bodies started fresh or by recovery since insertion or the last resume never exceed max_retries + 1. */
  lemma RunsAreBounded(bs: seq<Book>, cs: seq<Change>, i: nat, id: Id, m: int)
    requires Run(bs, cs) && i < |bs| && id in bs[i].db && LimitedTo(cs, id, m) && m > 0
    ensures id in bs[i].tallies && bs[i].tallies[id].runs <= m + 1
  {
    RunBounded(bs, cs, i, id, m);
  }

  /** The row of `id` exists in every state from `i` to `j`. */
  ghost predicate Exists(bs: seq<Book>, id: Id, i: nat, j: nat) {
    i <= j < |bs| && forall k :: i <= k <= j ==> id in bs[k].db
  }

  lemma SettledNext(bs: seq<Book>, cs: seq<Change>, id: Id, j: nat)
    requires Run(bs, cs) && 0 < j < |bs| && id in bs[j - 1].db && id in bs[j].db
    requires Settled(bs[j - 1].db[id].row.status)
    ensures Settled(bs[j].db[id].row.status)
  {
    assert Step(bs[j - 1], cs[j - 1], bs[j]);
    StatusMoves(cs[j - 1], bs[j - 1].db, bs[j].db, id);
  }

  /** {SUCCESS, ERROR} is left only by deletion. */
  lemma {:induction false} SettledForever(bs: seq<Book>, cs: seq<Change>, id: Id, i: nat, j: nat)
    requires Run(bs, cs) && Exists(bs, id, i, j) && Settled(bs[i].db[id].row.status)
    ensures Settled(bs[j].db[id].row.status)
    decreases j
  {
    if i < j {
      SettledForever(bs, cs, id, i, j - 1);
      SettledNext(bs, cs, id, j);
    }
  }

  lemma CancelledNext(bs: seq<Book>, cs: seq<Change>, id: Id, j: nat)
    requires Run(bs, cs) && 0 < j < |bs| && id in bs[j - 1].db && id in bs[j].db
    requires bs[j - 1].db[id].row.status.Cancelled? && !(cs[j - 1].Resume? && id in cs[j - 1].ids)
    ensures bs[j].db[id].row.status.Cancelled?
  {
    assert Step(bs[j - 1], cs[j - 1], bs[j]);
    StatusMoves(cs[j - 1], bs[j - 1].db, bs[j].db, id);
  }

  /** CANCELLED is left only by resume or deletion, whatever outcome races with it. */
  lemma {:induction false} CancelledUntilResumed(bs: seq<Book>, cs: seq<Change>, id: Id, i: nat, j: nat)
    requires Run(bs, cs) && Exists(bs, id, i, j) && bs[i].db[id].row.status.Cancelled?
    requires forall k :: i <= k < j ==> !(cs[k].Resume? && id in cs[k].ids)
    ensures bs[j].db[id].row.status.Cancelled?
    decreases j
  {
    if i < j {
      CancelledUntilResumed(bs, cs, id, i, j - 1);
      CancelledNext(bs, cs, id, j);
    }
  }

  /** The columns that place a workflow in its queue, and those that say what it is. */
  predicate SameColumns(row: Row, row': Row) {
    && SameIdentity(row, row') && row.createdAt == row'.createdAt && row.priority == row'.priority
    && row.partition == row'.partition && row.owner == row'.owner && row.timeoutMs == row'.timeoutMs
    && row.delayUntil == row'.delayUntil
  }

  lemma ColumnsMove(c: Change, row: Row, row': Row)
    requires RowMoves(c, row, row')
    ensures SameColumns(row, row')
    ensures row.deadline.Some? ==> row'.deadline == row.deadline || (c.Resume? && row'.deadline.None?)
    ensures row.deadline.None? && row'.deadline.Some? ==>
      Claims(c, row, row') && row.timeoutMs.Some? && row'.deadline.value == c.now + row.timeoutMs.value
  {
  }

  lemma ColumnsNext(c: Change, db: Db, db': Db, id: Id)
    requires Changes(c, db, db') && id in db && id in db'
    ensures SameColumns(db[id].row, db'[id].row)
    ensures db[id].row.deadline.Some? && !(c.Resume? && id in c.ids) ==> db'[id].row.deadline == db[id].row.deadline
  {
    ChangeMoves(c, db, db', id);
    ColumnsMove(c, db[id].row, db'[id].row);
    assert c.Resume? && id !in c.ids ==> db'[id] == db[id];
  }

  /** Name, input, origin, queue order, partition, owner, timeout and delay stay for as long as the row exists. */
  lemma {:induction false} ColumnsNeverChange(bs: seq<Book>, cs: seq<Change>, id: Id, i: nat, j: nat)
    requires Run(bs, cs) && Exists(bs, id, i, j)
    ensures SameColumns(bs[i].db[id].row, bs[j].db[id].row)
    decreases j
  {
    if i < j {
      ColumnsNeverChange(bs, cs, id, i, j - 1);
      assert Step(bs[j - 1], cs[j - 1], bs[j]);
      ColumnsNext(cs[j - 1], bs[j - 1].db, bs[j].db, id);
    }
  }

  /** A workflow's deadline, once its first claim has set it, outlives every crash, recovery and later claim until
      a resume removes it. */
  lemma {:induction false} DeadlineIsSetOnce(bs: seq<Book>, cs: seq<Change>, id: Id, i: nat, j: nat)
    requires Run(bs, cs) && Exists(bs, id, i, j) && bs[i].db[id].row.deadline.Some?
    requires forall k :: i <= k < j ==> !(cs[k].Resume? && id in cs[k].ids)
    ensures bs[j].db[id].row.deadline == bs[i].db[id].row.deadline
    decreases j
  {
    if i < j {
      DeadlineIsSetOnce(bs, cs, id, i, j - 1);
      assert Step(bs[j - 1], cs[j - 1], bs[j]);
      ColumnsNext(cs[j - 1], bs[j - 1].db, bs[j].db, id);
    }
  }

  // ---- the replay engine's frame --------------------------------------------------------------------------

  lemma MovesKeepIdentity(c: Change, row: Row, row': Row)
    requires RowMoves(c, row, row')
    ensures SameIdentity(row, row')
  {
  }

  lemma InsertKeepsTables(db: Db, input: InsertInput, maxRetries: int, id: Id)
    requires id in db
    ensures var db' := InsertStatus(db, input, maxRetries).0; id in db' && db'[id] == db[id].(row := db'[id].row)
  {
  }

  lemma UpdateKeepsTables(db: Db, ids: set<Id>, f: Row -> Row, id: Id)
    requires id in db
    ensures var db' := UpdateRows(db, ids, f); id in db' && db'[id] == db[id].(row := db'[id].row)
  {
  }

  /** Of the tables beside `workflow_status`, a row that stays keeps everything. */
  lemma ChangeKeepsTables(c: Change, db: Db, db': Db, id: Id)
    requires Changes(c, db, db') && id in db && id in db'
    ensures db'[id] == db[id].(row := db'[id].row)
  {
    match c
    case Start(input, m, _) => InsertKeepsTables(db, input, m, id);
    case Enqueue(input, m) => InsertKeepsTables(db, input, m, id);
    case Finish(i, result, now) => UpdateKeepsTables(db, {i}, row => FinishRow(row, result, now), id);
    case Cancel(ids, now) => UpdateKeepsTables(db, ids, row => CancelRow(row, now), id);
    case Resume(ids, queue, now) => UpdateKeepsTables(db, ids, row => ResumeRow(row, queue, now), id);
    case Clear(i) => UpdateKeepsTables(db, {i}, ClearRow, id);
    case Promote(now) => UpdateKeepsTables(db, db.Keys, row => PromoteRow(row, now), id);
    case _ =>
  }

  lemma ChangeIsNew(c: Change, db: Db, db': Db, id: Id)
    requires Changes(c, db, db') && id !in db && id in db'
    ensures Replay.IsNew(db, db'[id]) && db'[id].inbox == map[]
  {
    match c
    case ForkAt(fork) => assert db'[id] == ForkWorkflow(db[fork.original], fork);
    case _ =>
  }

  /** Every change, deletion of a running workflow included, is one the replay engine tolerates, as long as no row is
      inserted under the id of an execution that outlived its row. */
  lemma ChangesAreFramed(c: Change, db: Db, db': Db, live: set<Id>)
    requires Changes(c, db, db') && forall id :: id in db' && id !in db ==> id !in live
    ensures Replay.RowFrame(db, db', live)
  {
    forall id | id in db' ensures id in db ==> SameTables(db[id], db'[id]) && db'[id].inbox == db[id].inbox {
      if id in db {
        ChangeKeepsTables(c, db, db', id);
        ChangeMoves(c, db, db', id);
        MovesKeepIdentity(c, db[id].row, db'[id].row);
      }
    }
    forall id | id in db' && id !in db ensures Replay.IsNew(db, db'[id]) && db'[id].inbox == map[] {
      ChangeIsNew(c, db, db', id);
    }
  }
}
