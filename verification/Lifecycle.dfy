/**
 What starts and outcomes make of a row, column by column, and what follows over whole runs: how often a crashing
 workflow is started again, whose result a finished one holds, and how long a delayed one waits.
 */
module Lifecycle {
  import opened Wrappers
  import opened Tables
  import opened StatusTable
  import opened Fork
  import opened Queue
  import opened RowMachine
  import opened RowTheorems

  // ---- outcomes -------------------------------------------------------------------------------------------

  /** The row says that its body returned `result`. */
  predicate Holds(row: Row, result: Result<string, string>) {
    match result
    case Ok(output) => row.status == Success && row.output == Some(output) && row.error == None
    case Err(error) => row.status == Error && row.error == Some(error) && row.output == None
  }

  /** An outcome is stored as it is, unless the row was cancelled. It changes six columns of that one row. */
  lemma OutcomeIsStored(db: Db, id: Id, result: Result<string, string>, now: int, db': Db)
    requires Changes(Finish(id, result, now), db, db') && id in db
    ensures db'.Keys == db.Keys && forall v :: v in db && v != id ==> db'[v] == db[v]
    ensures db[id].row.status == Cancelled ==> db'[id] == db[id]
    ensures db[id].row.status != Cancelled ==>
      var row' := db'[id].row;
      && Holds(row', result)
      && db'[id] == db[id].(row := db[id].row.(status := row'.status, output := row'.output, error := row'.error,
                                               completedAt := Some(now), updatedAt := now, dedup := None))
  {
    assert db'[id].row == FinishRow(db[id].row, result, now);
  }

  /** Nothing but an outcome changes what a settled row holds. */
  lemma SettledRowStays(c: Change, db: Db, db': Db, id: Id)
    requires Changes(c, db, db') && id in db && id in db' && Settled(db[id].row.status) && !(c.Finish? && c.id == id)
    ensures var row, row' := db[id].row, db'[id].row;
      row'.status == row.status && row'.output == row.output && row'.error == row.error
  {
    ChangeMoves(c, db, db', id);
    if c.Finish? {
      assert db'[id] == db[id];
    }
  }

  lemma OnlyFinishSettles(c: Change, db: Db, db': Db, id: Id)
    requires Changes(c, db, db') && id in db' && Settled(db'[id].row.status)
    ensures id in db && (Settled(db[id].row.status) || (c.Finish? && c.id == id))
  {
    ChangeMoves(c, db, db', id);
    if id in db {
      StatusMoves(c, db, db', id);
      if c.Finish? && c.id != id {
        assert db'[id] == db[id];
      }
    }
  }

  /** The outcome at `k` is the last one for `id` before state `i`, and its row has been there since. */
  ghost predicate LastOutcome(bs: seq<Book>, cs: seq<Change>, id: Id, k: nat, i: nat) {
    && k < i <= |cs| && Exists(bs, id, k, i) && cs[k].Finish? && cs[k].id == id
    && forall j :: k < j < i ==> !(cs[j].Finish? && cs[j].id == id)
  }

  lemma LastOutcomeStays(bs: seq<Book>, cs: seq<Change>, id: Id, k: nat, i: nat)
    requires LastOutcome(bs, cs, id, k, i) && i + 1 < |bs| && i < |cs| && id in bs[i + 1].db
    requires !(cs[i].Finish? && cs[i].id == id)
    ensures LastOutcome(bs, cs, id, k, i + 1)
  {
  }

  /** What one change makes of a settled row. */
  lemma SettledBy(c: Change, db: Db, db': Db, id: Id)
    requires Changes(c, db, db') && id in db' && Settled(db'[id].row.status)
    ensures id in db
    ensures if c.Finish? && c.id == id then Holds(db'[id].row, c.result)
            else Settled(db[id].row.status)
                 && forall result :: Holds(db[id].row, result) ==> Holds(db'[id].row, result)
  {
    OnlyFinishSettles(c, db, db', id);
    if c.Finish? && c.id == id {
      OutcomeIsStored(db, id, c.result, c.now, db');
    } else {
      SettledRowStays(c, db, db', id);
    }
  }

  /** In every reachable state a settled row holds the result of the last outcome written for its workflow. */
  lemma {:induction false} SettledHoldsLastResult(bs: seq<Book>, cs: seq<Change>, i: nat, id: Id) returns (k: nat)
    requires Run(bs, cs) && i < |bs| && id in bs[i].db && Settled(bs[i].db[id].row.status)
    ensures LastOutcome(bs, cs, id, k, i) && Holds(bs[i].db[id].row, cs[k].result)
  {
    assert i > 0;
    var c := cs[i - 1];
    SettledBy(c, bs[i - 1].db, bs[i].db, id);
    if c.Finish? && c.id == id {
      k := i - 1;
    } else {
      k := SettledHoldsLastResult(bs, cs, i - 1, id);
      LastOutcomeStays(bs, cs, id, k, i - 1);
    }
  }

  // ---- attempts -------------------------------------------------------------------------------------------

  /** The row has used up its attempts: dead-lettered, and out of every queue. */
  predicate IsDead(row: Row) {
    row.status == DeadLettered && row.queue == None && row.dedup == None && row.startedAt == None
  }

  /** Does the start `c` of a workflow decide to run its body? */
  predicate Decides(db: Db, c: Change)
    requires c.Start?
  {
    RunsBody(InsertStatus(db, c.input, c.maxRetries).1, c.input.row.owner, c.recovery)
  }

  /** Recovery of a running workflow outside any queue counts one attempt. It runs the body again exactly while the
      attempts before it are at most the limit, if there is one, and dead-letters the row otherwise. */
  lemma RecoveryIsExact(c: Change, db: Db, db': Db)
    requires Changes(c, db, db') && c.Start? && c.recovery && c.input.id in db
    requires var row := db[c.input.id].row;
      row.status == Pending && row.queue == None && row.name == c.input.row.name
    ensures db'.Keys == db.Keys && forall v :: v in db && v != c.input.id ==> db'[v] == db[v]
    ensures var row, row' := db[c.input.id].row, db'[c.input.id].row;
      && (Decides(db, c) <==> c.maxRetries <= 0 || row.attempts <= c.maxRetries)
      && row'.attempts == row.attempts + 1 && row'.executor == c.input.row.executor
      && (if Decides(db, c) then row'.status == Pending && row'.queue == None else IsDead(row'))
  {
  }

  /** A start that finds no row inserts its own and runs the body. */
  lemma FirstStartRuns(c: Change, db: Db, db': Db)
    requires Changes(c, db, db') && c.Start? && c.input.id !in db
    ensures db' == db[c.input.id := Unstarted(c.input.row)] && Decides(db, c)
  {
    FreshIsAlive(db, c.input, c.maxRetries);
  }

  /** Changes that are about workflow `id`. */
  predicate Concerns(c: Change, id: Id) {
    match c
    case Start(input, _, _) => input.id == id
    case Enqueue(input, _) => input.id == id
    case Finish(f, _, _) => f == id
    case Cancel(ids, _) => id in ids
    case Resume(ids, _, _) => id in ids
    case _ => false
  }

  predicate Recovers(c: Change, id: Id, name: string, m: int) {
    c.Start? && c.recovery && c.input.id == id && c.input.row.name == name && c.maxRetries == m
  }

  /** The change at `a` starts workflow `id` for the first time. Until state `i` it neither ends nor is deleted, but
      its process crashes any number of times and it is recovered, under the limit `m`. */
  ghost predicate OnlyCrashes(bs: seq<Book>, cs: seq<Change>, id: Id, m: int, a: nat, i: nat) {
    && a < i <= |cs| < |bs| && id !in bs[a].db && Exists(bs, id, a + 1, i)
    && cs[a].Start? && !cs[a].recovery && cs[a].input.id == id
    && forall k :: a < k < i ==> Concerns(cs[k], id) ==> Recovers(cs[k], id, cs[a].input.row.name, m)
  }

  /** When it was recovered. */
  ghost function Recoveries(cs: seq<Change>, id: Id, a: nat, i: nat): set<int>
    requires i <= |cs|
  {
    set k | a < k < i && Concerns(cs[k], id)
  }

  lemma RecoveriesNext(cs: seq<Change>, id: Id, a: nat, i: nat, n: nat, n': nat)
    requires a + 1 < i <= |cs| && n == |Recoveries(cs, id, a, i - 1)|
    requires n' == n + if Concerns(cs[i - 1], id) then 1 else 0
    ensures n' == |Recoveries(cs, id, a, i)|
  {
    assert Recoveries(cs, id, a, i) == Recoveries(cs, id, a, i - 1) + if Concerns(cs[i - 1], id) then {i - 1} else {};
  }

  /** A workflow whose body never came to an end, after `n` recoveries. */
  ghost predicate Crashed(b: Book, id: Id, name: string, m: int, n: nat) {
    && id in b.db && id in b.tallies && b.db[id].row.name == name && b.db[id].row.queue == None
    && b.db[id].row.attempts == n + 1
    && (if m <= 0 || n <= m
        then b.db[id].row.status == Pending && b.tallies[id].runs == n + 1
        else IsDead(b.db[id].row) && b.tallies[id].runs == m + 1)
  }

  lemma FirstStart(b: Book, c: Change, b': Book, m: int)
    requires Step(b, c, b') && c.Start? && !c.recovery && c.input.id !in b.db
    ensures Crashed(b', c.input.id, c.input.row.name, m, 0)
  {
    FirstStartRuns(c, b.db, b'.db);
  }

  lemma CrashedRecovers(b: Book, c: Change, b': Book, id: Id, name: string, m: int, n: nat)
    requires Step(b, c, b') && Crashed(b, id, name, m, n) && Recovers(c, id, name, m)
    ensures Crashed(b', id, name, m, n + 1)
  {
    if m <= 0 || n <= m {
      RecoveryIsExact(c, b.db, b'.db);
    }
  }

  /** Whatever happens to other workflows. */
  lemma CrashedStays(b: Book, c: Change, b': Book, id: Id, name: string, m: int, n: nat)
    requires Step(b, c, b') && Crashed(b, id, name, m, n) && !Concerns(c, id) && id in b'.db
    ensures Crashed(b', id, name, m, n)
  {
    OthersLeave(c, b.db, b'.db, id);
  }

  lemma OthersLeave(c: Change, db: Db, db': Db, id: Id)
    requires Changes(c, db, db') && id in db && id in db' && !Concerns(c, id)
    requires db[id].row.queue == None && (db[id].row.status == Pending || db[id].row.status == DeadLettered)
    ensures db'[id].row == db[id].row || db'[id].row == db[id].row.(wasForkedFrom := true)
  {
    match c
    case Start(input, m, _) => InsertMoves(db, input, m, id);
    case Enqueue(input, m) => InsertMoves(db, input, m, id);
    case Dequeue(request, _, _, claimed) => assert id in claimed ==> id in Eligible(db, request);
    case _ =>
  }

  lemma CrashedNext(b: Book, c: Change, b': Book, id: Id, name: string, m: int, n: nat, n': nat)
    requires Step(b, c, b') && Crashed(b, id, name, m, n) && id in b'.db
    requires Concerns(c, id) ==> Recovers(c, id, name, m)
    requires n' == n + if Concerns(c, id) then 1 else 0
    ensures Crashed(b', id, name, m, n')
  {
    if Concerns(c, id) {
      CrashedRecovers(b, c, b', id, name, m, n);
    } else {
      CrashedStays(b, c, b', id, name, m, n);
    }
  }

  lemma CrashesBegin(bs: seq<Book>, cs: seq<Change>, id: Id, m: int, a: nat)
    requires Run(bs, cs) && OnlyCrashes(bs, cs, id, m, a, a + 1)
    ensures Crashed(bs[a + 1], id, cs[a].input.row.name, m, 0) && Recoveries(cs, id, a, a + 1) == {}
  {
    FirstStart(bs[a], cs[a], bs[a + 1], m);
  }

  lemma CrashesGoOn(bs: seq<Book>, cs: seq<Change>, id: Id, m: int, a: nat, i: nat, n: nat) returns (n': nat)
    requires Run(bs, cs) && OnlyCrashes(bs, cs, id, m, a, i) && a + 1 < i
    requires n == |Recoveries(cs, id, a, i - 1)| && Crashed(bs[i - 1], id, cs[a].input.row.name, m, n)
    ensures n' == |Recoveries(cs, id, a, i)| && Crashed(bs[i], id, cs[a].input.row.name, m, n')
  {
    n' := n + if Concerns(cs[i - 1], id) then 1 else 0;
    RecoveriesNext(cs, id, a, i, n, n');
    CrashedNext(bs[i - 1], cs[i - 1], bs[i], id, cs[a].input.row.name, m, n, n');
  }

  /**
   A workflow that only crashes and is recovered has its body started once and then once more by each recovery,
   `max_retries + 1` times in all; the recovery after that dead-letters it, and no later one starts it again.
   */
  lemma {:induction false} CrashesRunExactly(bs: seq<Book>, cs: seq<Change>, id: Id, m: int, a: nat, i: nat)
    returns (n: nat)
    requires Run(bs, cs) && OnlyCrashes(bs, cs, id, m, a, i)
    ensures n == |Recoveries(cs, id, a, i)| && Crashed(bs[i], id, cs[a].input.row.name, m, n)
    decreases i
  {
    if i == a + 1 {
      CrashesBegin(bs, cs, id, m, a);
      n := 0;
    } else {
      n := CrashesRunExactly(bs, cs, id, m, a, i - 1);
      n := CrashesGoOn(bs, cs, id, m, a, i, n);
    }
  }

  // ---- delays ---------------------------------------------------------------------------------------------

  /** The change may end the wait of a delayed row: a promotion after its time, or something about that workflow. */
  predicate EndsDelay(c: Change, id: Id, until: int) {
    (c.Promote? && until <= c.now) || ((c.Finish? || c.Cancel? || c.Resume?) && Concerns(c, id))
  }

  lemma DelayedNext(c: Change, db: Db, db': Db, id: Id, until: int)
    requires Changes(c, db, db') && id in db && id in db' && !EndsDelay(c, id, until)
    requires db[id].row.status == Delayed && db[id].row.delayUntil == Some(until)
    ensures db'[id].row.status == Delayed && db'[id].row.delayUntil == Some(until)
  {
    ChangeMoves(c, db, db', id);
    match c
    case Start(input, m, _) => InsertMoves(db, input, m, id);
    case Enqueue(input, m) => InsertMoves(db, input, m, id);
    case _ =>
  }

  /** A delayed workflow stays DELAYED, so no dequeue claims it, until a promotion reads the clock at its time or
      later, unless it is cancelled, resumed or given an outcome. */
  lemma {:induction false} DelayedUntilDue(bs: seq<Book>, cs: seq<Change>, id: Id, i: nat, j: nat, until: int)
    requires Run(bs, cs) && Exists(bs, id, i, j)
    requires bs[i].db[id].row.status == Delayed && bs[i].db[id].row.delayUntil == Some(until)
    requires forall k :: i <= k < j ==> !EndsDelay(cs[k], id, until)
    ensures bs[j].db[id].row.status == Delayed && bs[j].db[id].row.delayUntil == Some(until)
    decreases j
  {
    if i < j {
      DelayedUntilDue(bs, cs, id, i, j - 1, until);
      assert Step(bs[j - 1], cs[j - 1], bs[j]);
      DelayedNext(cs[j - 1], bs[j - 1].db, bs[j].db, id, until);
    }
  }

  // ---- forks ------------------------------------------------------------------------------------------------

  /** A fork waits in the queue it was asked for, with its own attempts and no deadline: exactly the dequeues of that
      queue, partition and version may claim it, any version if none was given. */
  lemma ForkIsQueued(fork: ForkInput, db: Db, db': Db, d: DequeueInput)
    requires Changes(ForkAt(fork), db, db')
    ensures var row, row' := db[fork.original].row, db'[fork.forked].row;
      && row'.name == row.name && row'.inputs == row.inputs && row'.forkedFrom == Some(fork.original)
      && row'.attempts == row'.priority == 0 && row'.deadline == None && row'.createdAt == row'.updatedAt == fork.now
      && row'.timeoutMs == row'.delayUntil == None && row'.owner == row'.executor == row'.dedup == None
      && (IsEligible(row', d) <==>
            && d.queue == fork.queue && (d.partition.Some? ==> fork.partition == d.partition)
            && (fork.version.None? || fork.version == Some(d.version)))
  {
    assert db'[fork.forked].row == ForkRow(db[fork.original].row, fork);
  }

  /** It has the checkpoints below the start step and no messages. The original is only marked, and nothing else
      changes. */
  lemma ForkCopies(fork: ForkInput, db: Db, db': Db)
    requires Changes(ForkAt(fork), db, db')
    ensures db'.Keys == db.Keys + {fork.forked} && forall id :: id in db && id != fork.original ==> db'[id] == db[id]
    ensures db'[fork.original] == db[fork.original].(row := db[fork.original].row.(wasForkedFrom := true))
    ensures var x, y := db[fork.original], db'[fork.forked];
      && y.inbox == map[] && (forall i :: i in y.ops <==> i in x.ops && i < fork.start)
      && forall i :: i in y.ops ==> y.ops[i] == x.ops[i]
  {
    assert db'[fork.forked] == ForkWorkflow(db[fork.original], fork);
  }
}
