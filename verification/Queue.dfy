/**
 `dequeue_workflows` as one atomic step: which rows it may claim, how many, in which order, and
 what a claim changes.
 */
module Queue {
  import opened Wrappers
  import opened Tables
  import opened StatusTable
  import opened Counting

  /** At most `limit` starts per `period` milliseconds. */
  datatype RateLimit = RateLimit(limit: nat, period: nat)

  datatype DequeueInput = DequeueInput(
    queue: string,
    executor: string,
    version: string,
    partition: Option<string>,
    local: nat,
    worker: Option<nat>,
    global: Option<nat>,
    maxTasks: nat,
    rate: Option<RateLimit>
  )

  // ---- specification --------------------------------------------------------------------------------

  predicate InQueue(row: Row, queue: string, partition: Option<string>) {
    row.queue == Some(queue) && (partition.Some? ==> row.partition == partition)
  }

  predicate IsEligible(row: Row, input: DequeueInput) {
    && InQueue(row, input.queue, input.partition) && row.status.Enqueued?
    && (row.version == Some(input.version) || row.version.None?)
  }

  function Eligible(db: Db, input: DequeueInput): set<Id> {
    set id | id in db && IsEligible(db[id].row, input)
  }

  /** Rows that count against the global cap. */
  function Running(db: Db, queue: string, partition: Option<string>): set<Id> {
    set id | id in db && InQueue(db[id].row, queue, partition) && db[id].row.status.Pending?
  }

  /** Rows that count against the rate limit. */
  function Recent(db: Db, queue: string, partition: Option<string>, cutoff: int): set<Id> {
    set id | id in db && InQueue(db[id].row, queue, partition) && db[id].row.rateLimited && !Waiting(db[id].row.status)
             && db[id].row.startedAt.Some? && db[id].row.startedAt.value > cutoff
  }

  function Min(a: nat, b: nat): nat {
    if a <= b then a else b
  }

  function Minus(a: nat, b: nat): nat {
    if a <= b then 0 else a - b
  }

  /** Worker slots left, or the per-iteration maximum without a worker cap; then capped by free global slots. */
  function TaskAllowance(db: Db, input: DequeueInput): nat {
    var tasks := if input.worker.Some? then Minus(input.worker.value, input.local) else input.maxTasks;
    if input.global.Some?
    then Min(tasks, Minus(input.global.value, |Running(db, input.queue, input.partition)|))
    else tasks
  }

  /** Starts the rate limit leaves at time `gate`. */
  function RateAllowance(db: Db, input: DequeueInput, gate: int): nat
    requires input.rate.Some?
  {
    Minus(input.rate.value.limit, |Recent(db, input.queue, input.partition, gate - input.rate.value.period)|)
  }

  function Allowance(db: Db, input: DequeueInput, gate: int): nat {
    if input.rate.Some? then Min(TaskAllowance(db, input), RateAllowance(db, input, gate)) else TaskAllowance(db, input)
  }

  /** ORDER BY priority ASC, created_at ASC. */
  predicate Before(a: Row, b: Row) {
    a.priority < b.priority || (a.priority == b.priority && a.createdAt <= b.createdAt)
  }

  ghost predicate Distinct(ids: seq<Id>) {
    forall i, j :: 0 <= i < j < |ids| ==> ids[i] != ids[j]
  }

  ghost predicate Sorted(db: Db, ids: seq<Id>)
    requires forall id :: id in ids ==> id in db
  {
    forall i, j :: 0 <= i < j < |ids| ==> Before(db[ids[i]].row, db[ids[j]].row)
  }

  /** `ids` is what SELECT ... ORDER BY ... LIMIT n may return: sorted, and nothing left out goes before. */
  ghost predicate IsSelection(db: Db, from: set<Id>, ids: seq<Id>, n: nat) {
    && (forall id :: id in from ==> id in db)
    && (forall id :: id in ids ==> id in from)
    && Distinct(ids) && |ids| == Min(|from|, n) && Sorted(db, ids)
    && forall x, y :: x in ids && y in from && y !in ids ==> Before(db[x].row, db[y].row)
  }

  function ClaimRow(row: Row, input: DequeueInput, now: int): Row {
    row.(status := Pending, version := Some(input.version), executor := Some(input.executor), startedAt := Some(now),
         rateLimited := input.rate.Some?,
         deadline := if row.timeoutMs.Some? && row.deadline.None?
                     then Some(now + row.timeoutMs.value) else row.deadline)
  }

  function ClaimRows(db: Db, ids: seq<Id>, input: DequeueInput, now: int): Db {
    map id | id in db :: if id in ids then db[id].(row := ClaimRow(db[id].row, input, now)) else db[id]
  }

  /** An atomic dequeue: the first of the sorted eligible rows, as many as every limit allows. */
  ghost predicate Dequeued(db: Db, input: DequeueInput, gate: int, now: int, ids: seq<Id>, db': Db) {
    IsSelection(db, Eligible(db, input), ids, Allowance(db, input, gate)) && db' == ClaimRows(db, ids, input, now)
  }

  // ---- selections are prefixes of the sorted rows -----------------------------------------------------

  ghost function Elements(ids: seq<Id>): set<Id> {
    set id | id in ids
  }

  /** A first element of a set of rows. */
  lemma {:induction false} FirstExists(db: Db, s: set<Id>) returns (x: Id)
    requires s != {} && forall id :: id in s ==> id in db
    ensures x in s && forall y :: y in s ==> Before(db[x].row, db[y].row)
  {
    x := Element(s);
    if s != {x} {
      assert s - {x} != {};
      var y := FirstExists(db, s - {x});
      assert forall z :: z in s ==> z == x || z in s - {x};
      if !Before(db[x].row, db[y].row) {
        x := y;
      }
    }
  }

  lemma {:induction false} SortExists(db: Db, s: set<Id>) returns (ids: seq<Id>)
    requires forall id :: id in s ==> id in db
    ensures Elements(ids) == s && |ids| == |s| && Distinct(ids) && Sorted(db, ids)
  {
    if s == {} {
      ids := [];
    } else {
      var x := FirstExists(db, s);
      var rest := SortExists(db, s - {x});
      ids := [x] + rest;
      assert forall id :: id in rest <==> id in Elements(rest);
      assert Elements(ids) == s;
    }
  }

  lemma AppendSorted(db: Db, a: seq<Id>, b: seq<Id>)
    requires forall id :: id in a || id in b ==> id in db
    requires Distinct(a) && Distinct(b) && Sorted(db, a) && Sorted(db, b)
    requires forall x, y :: x in a && y in b ==> x != y && Before(db[x].row, db[y].row)
    ensures Distinct(a + b) && Sorted(db, a + b)
  {
    var c := a + b;
    forall i, j | 0 <= i < j < |c| ensures c[i] != c[j] && Before(db[c[i]].row, db[c[j]].row) {
      if i < |a| <= j {
        assert c[i] in a && c[j] in b;
      }
    }
  }

  /** A selection continues to a sorted listing of all rows it was taken from. */
  lemma SelectionIsPrefix(db: Db, from: set<Id>, ids: seq<Id>, n: nat) returns (all: seq<Id>)
    requires IsSelection(db, from, ids, n)
    ensures Elements(all) == from && Distinct(all) && Sorted(db, all) && ids <= all
    ensures |ids| == Min(|all|, n)
  {
    var rest := SortExists(db, from - Elements(ids));
    all := ids + rest;
    forall y | y in rest ensures y in from && y !in ids {
      assert y in Elements(rest);
    }
    AppendSorted(db, ids, rest);
    assert Elements(all) == Elements(ids) + Elements(rest);
    ElementCount(all);
  }

  lemma PrefixIsSelection(db: Db, from: set<Id>, all: seq<Id>, n: nat)
    requires forall id :: id in from ==> id in db
    requires Elements(all) == from && Distinct(all) && Sorted(db, all)
    ensures IsSelection(db, from, all[..Min(|all|, n)], n)
  {
    var ids := all[..Min(|all|, n)];
    ElementCount(all);
    assert forall id :: id in all <==> id in Elements(all);
    forall x, y | x in ids && y in from && y !in ids ensures Before(db[x].row, db[y].row) {
      var i :| 0 <= i < |ids| && ids[i] == x;
      var j :| 0 <= j < |all| && all[j] == y;
      assert i < j;
    }
  }

  /** The first of a selection are a selection: the claim loop may stop early. */
  lemma SelectionShortens(db: Db, from: set<Id>, ids: seq<Id>, n: nat, k: nat)
    requires IsSelection(db, from, ids, n) && k <= n
    ensures IsSelection(db, from, ids[..Min(|ids|, k)], k)
  {
    var all := SelectionIsPrefix(db, from, ids, n);
    ElementCount(all);
    assert ids[..Min(|ids|, k)] == all[..Min(|all|, k)];
    PrefixIsSelection(db, from, all, k);
  }

  /** An atomic dequeue claims a prefix of the sorted eligible rows, of length exactly the least of their number,
      the task allowance and the unused rate allowance, and changes no other row. */
  lemma DequeueIsPrefix(db: Db, input: DequeueInput, gate: int, now: int, ids: seq<Id>, db': Db) returns (all: seq<Id>)
    requires Dequeued(db, input, gate, now, ids, db')
    ensures Elements(all) == Eligible(db, input) && Distinct(all) && Sorted(db, all)
    ensures |ids| == Min(|all|, Allowance(db, input, gate)) && ids == all[..|ids|]
    ensures db'.Keys == db.Keys && forall id :: id in db && id !in ids ==> db'[id] == db[id]
    ensures forall id :: id in ids ==> db'[id] == db[id].(row := ClaimRow(db[id].row, input, now))
  {
    all := SelectionIsPrefix(db, Eligible(db, input), ids, Allowance(db, input, gate));
    assert forall id :: id in ids ==> id in Eligible(db, input);
  }

  /** What a claim makes of a row, column by column. */
  lemma ClaimedColumns(db: Db, input: DequeueInput, gate: int, now: int, ids: seq<Id>, db': Db, id: Id)
    requires Dequeued(db, input, gate, now, ids, db') && id in ids
    ensures id in db && id in db' && db[id].row.status == Enqueued
    ensures var row, row' := db[id].row, db'[id].row;
      && row'.status == Pending && row'.executor == Some(input.executor) && row'.version == Some(input.version)
      && row'.startedAt == Some(now) && (row'.rateLimited <==> input.rate.Some?)
      && row'.deadline == (if row.deadline == None && row.timeoutMs.Some? then Some(now + row.timeoutMs.value)
                           else row.deadline)
      && db'[id] == db[id].(row := row.(status := row'.status, executor := row'.executor, version := row'.version,
                                        startedAt := row'.startedAt, rateLimited := row'.rateLimited,
                                        deadline := row'.deadline))
  {
    assert id in Eligible(db, input);
  }

  /** Row `id` is in the queue, and in the partition if one is asked for. */
  predicate IsIn(db: Db, id: Id, input: DequeueInput) {
    && id in db && db[id].row.queue == Some(input.queue)
    && (input.partition == None || db[id].row.partition == input.partition)
  }

  /** A waiting row that this dequeue may claim. */
  predicate IsWaiting(db: Db, id: Id, input: DequeueInput) {
    IsIn(db, id, input) && db[id].row.status == Enqueued && db[id].row.version in {None, Some(input.version)}
  }

  /** A marked row started in the trailing period. */
  predicate IsRecent(db: Db, id: Id, input: DequeueInput, gate: int) {
    && IsIn(db, id, input) && db[id].row.rateLimited && db[id].row.status !in {Enqueued, Delayed}
    && input.rate.Some? && db[id].row.startedAt.Some? && gate - input.rate.value.period < db[id].row.startedAt.value
  }

  /** What the limits are counted on. */
  lemma CountedRows(
    db: Db, input: DequeueInput, gate: int, waiting: set<Id>, running: set<Id>, recent: set<Id>)
    requires forall id :: id in waiting <==> IsWaiting(db, id, input)
    requires forall id :: id in running <==> IsIn(db, id, input) && db[id].row.status == Pending
    requires forall id :: id in recent <==> IsRecent(db, id, input, gate)
    ensures waiting == Eligible(db, input) && running == Running(db, input.queue, input.partition)
    ensures input.rate.Some? ==>
      recent == Recent(db, input.queue, input.partition, gate - input.rate.value.period)
  {
  }

  /**
   How far a dequeue goes: it claims as many of the waiting rows as its limits leave, neither more nor fewer. They count
   the slots of this worker, or the greatest number per turn; the running rows of all workers; and the marked
   rows started in the trailing period, no others.
   */
  lemma DequeueIsGreedy(
    db: Db, input: DequeueInput, gate: int, now: int, ids: seq<Id>, db': Db,
    waiting: set<Id>, running: set<Id>, recent: set<Id>, slots: int)
    requires Dequeued(db, input, gate, now, ids, db')
    requires forall id :: id in waiting <==> IsWaiting(db, id, input)
    requires forall id :: id in running <==> IsIn(db, id, input) && db[id].row.status == Pending
    requires forall id :: id in recent <==> IsRecent(db, id, input, gate)
    requires slots == if input.worker.Some? then input.worker.value - input.local else input.maxTasks
    ensures |ids| <= |waiting|
    ensures ids != [] ==>
      && |ids| <= slots
      && (input.global.Some? ==> |running| + |ids| <= input.global.value)
      && (input.rate.Some? ==> |recent| + |ids| <= input.rate.value.limit)
    ensures |ids| < |waiting| ==>
      || slots <= |ids|
      || (input.global.Some? && input.global.value <= |running| + |ids|)
      || (input.rate.Some? && input.rate.value.limit <= |recent| + |ids|)
  {
    CountedRows(db, input, gate, waiting, running, recent);
  }

  /** Which rows it claims: waiting ones, the more urgent and then the older first. */
  lemma DequeueInOrder(db: Db, input: DequeueInput, gate: int, now: int, ids: seq<Id>, db': Db)
    requires Dequeued(db, input, gate, now, ids, db')
    ensures forall id :: id in ids ==> IsWaiting(db, id, input)
    ensures forall i, j :: 0 <= i < j < |ids| ==>
      && ids[i] != ids[j] && ids[i] in db && ids[j] in db
      && var a, b := db[ids[i]].row, db[ids[j]].row;
         a.priority < b.priority || (a.priority == b.priority && a.createdAt <= b.createdAt)
    ensures forall x, y :: x in ids && IsWaiting(db, y, input) && y !in ids ==>
      && x in db
      && var a, b := db[x].row, db[y].row;
         a.priority < b.priority || (a.priority == b.priority && a.createdAt <= b.createdAt)
  {
    forall id | IsWaiting(db, id, input) ensures id in Eligible(db, input) {
    }
    forall id | id in ids ensures id in db && IsWaiting(db, id, input) {
      assert id in Eligible(db, input);
    }
  }
}
