/**
 Dequeues of many executors interleaved statement by statement: a snapshot, candidates locked one at a time
 in the order of the query (SKIP LOCKED, or NOWAIT under a global cap), conditional updates, then
 commit or rollback. Versions tell a REPEATABLE READ transaction that a row changed after its snapshot.
 */
module ClaimLocks {
  import opened Wrappers
  import opened Tables
  import opened Counting
  import opened Queue

  /** A dequeue in flight. `passed`: candidates the query skipped; `tried`: locked ones the claim loop is past. */
  datatype Txn = Txn(
    request: DequeueInput,
    gate: int,
    snapshot: Db,
    versions: map<Id, nat>,
    locked: seq<Id>,
    passed: set<Id>,
    tried: nat,
    claimed: seq<Id>
  )

  /** `versions` holds the number of the commit that last wrote each row, `clock` the next such number. */
  datatype State = State(db: Db, versions: map<Id, nat>, clock: nat, locks: map<Id, nat>, txs: map<nat, Txn>)

  datatype Label =
    | Begin(t: nat, request: DequeueInput, gate: int)
    | Lock(t: nat, id: Id)
    | Pass(t: nat, id: Id)
    | Claim(t: nat)
    | Commit(t: nat, now: int)
    | Rollback(t: nat)
    | Write(id: Id, row: Option<Workflow>)

  // ---- one dequeue ------------------------------------------------------------------------------------------

  predicate RepeatableRead(request: DequeueInput) {
    request.global.Some? || request.rate.Some?
  }

  predicate IsEnqueued(db: Db, id: Id) {
    id in db && db[id].row.status.Enqueued?
  }

  /** The candidates of the snapshot that the query has not reached. */
  function Ahead(x: Txn): set<Id> {
    Eligible(x.snapshot, x.request) - (set id | id in x.locked) - x.passed
  }

  /** ORDER BY ... LIMIT: `id` is next, and the limit is not reached. */
  predicate IsNext(x: Txn, id: Id) {
    && |x.locked| < TaskAllowance(x.snapshot, x.request)
    && id in Ahead(x) && forall y :: y in Ahead(x) ==> Before(x.snapshot[id].row, x.snapshot[y].row)
  }

  /** The query has returned: enough rows are locked, or no candidate is left. */
  predicate Selected(x: Txn) {
    |x.locked| == TaskAllowance(x.snapshot, x.request) || Ahead(x) == {}
  }

  predicate Unchanged(s: State, x: Txn, id: Id) {
    && id in s.db && id in x.snapshot && s.db[id] == x.snapshot[id]
    && id in s.versions && id in x.versions && s.versions[id] == x.versions[id]
  }

  /** A READ COMMITTED transaction re-checks the newest version of the row, a REPEATABLE READ one fails unless the
      row is the one in its snapshot. */
  predicate MayLock(s: State, x: Txn, id: Id) {
    && id !in s.locks
    && if RepeatableRead(x.request) then Unchanged(s, x, id) else id in s.db && IsEligible(s.db[id].row, x.request)
  }

  /** SKIP LOCKED passes over a locked row; the re-check drops a row that is no candidate any more. */
  predicate MayPass(s: State, x: Txn, id: Id) {
    if id in s.locks then x.request.global.None?
    else !RepeatableRead(x.request) && !(id in s.db && IsEligible(s.db[id].row, x.request))
  }

  /** The claim loop stops when the rate limit is used up. */
  predicate UsedUp(x: Txn) {
    x.request.rate.Some? && |x.claimed| >= RateAllowance(x.snapshot, x.request, x.gate)
  }

  function Unlocked(locks: map<Id, nat>, t: nat): map<Id, nat> {
    map id | id in locks && locks[id] != t :: locks[id]
  }

  // ---- the system -------------------------------------------------------------------------------------------

  /**
   NOWAIT on a locked row, a serialization failure, a crash and an empty iteration all roll back. `Write` is any other
   transaction on a row; it waits for the lock.
   */
  ghost predicate Next(s: State, l: Label, s': State) {
    match l
    case Begin(t, request, gate) =>
      t !in s.txs && s' == s.(txs := s.txs[t := Txn(request, gate, s.db, s.versions, [], {}, 0, [])])
    case Lock(t, id) =>
      && t in s.txs && IsNext(s.txs[t], id) && MayLock(s, s.txs[t], id)
      && s' == s.(locks := s.locks[id := t], txs := s.txs[t := s.txs[t].(locked := s.txs[t].locked + [id])])
    case Pass(t, id) =>
      && t in s.txs && IsNext(s.txs[t], id) && MayPass(s, s.txs[t], id)
      && s' == s.(txs := s.txs[t := s.txs[t].(passed := s.txs[t].passed + {id})])
    case Claim(t) =>
      && t in s.txs && Selected(s.txs[t]) && s.txs[t].tried < |s.txs[t].locked| && !UsedUp(s.txs[t])
      && s' == s.(txs := s.txs[t := Tried(s.db, s.txs[t])])
    case Commit(t, now) => t in s.txs && MayCommit(s.txs[t]) && s' == Committed(s, t, now)
    case Rollback(t) => t in s.txs && s' == s.(locks := Unlocked(s.locks, t), txs := s.txs - {t})
    case Write(id, row) =>
      && id !in s.locks
      && s' == s.(db := if row.Some? then s.db[id := row.value] else s.db - {id},
                  versions := s.versions[id := s.clock], clock := s.clock + 1)
  }

  /** UPDATE ... WHERE workflow_uuid = id AND status = ENQUEUED, for the next candidate. */
  function Tried(db: Db, x: Txn): Txn
    requires x.tried < |x.locked|
  {
    var id := x.locked[x.tried];
    x.(tried := x.tried + 1, claimed := if IsEnqueued(db, id) then x.claimed + [id] else x.claimed)
  }

  predicate MayCommit(x: Txn) {
    Selected(x) && x.claimed != [] && (x.tried == |x.locked| || UsedUp(x))
  }

  function Committed(s: State, t: nat, now: int): State
    requires t in s.txs
  {
    var x := s.txs[t];
    State(ClaimRows(s.db, x.claimed, x.request, now),
          map id | id in s.versions :: if id in x.claimed then s.clock else s.versions[id],
          s.clock + 1, Unlocked(s.locks, t), s.txs - {t})
  }

  ghost predicate Run(ss: seq<State>, ls: seq<Label>) {
    && |ss| == |ls| + 1 && ss[0] == State(map[], map[], 0, map[], map[])
    && forall i :: 0 <= i < |ls| ==> Next(ss[i], ls[i], ss[i + 1])
  }

  // ---- invariant --------------------------------------------------------------------------------------------

  /** What a dequeue has locked is its own, still a candidate for everybody, and in the order of the query. */
  ghost predicate TxnOk(s: State, t: nat, x: Txn) {
    && (forall id :: id in x.locked ==> id in s.locks && s.locks[id] == t)
    && (forall id :: id in x.locked ==> id in Eligible(x.snapshot, x.request) && IsEnqueued(s.db, id))
    && (forall id :: id in x.locked ==> IsEligible(s.db[id].row, x.request))
    && InOrder(x) && x.tried <= |x.locked| && x.claimed == x.locked[..x.tried]
    && |x.locked| <= TaskAllowance(x.snapshot, x.request) && (x.request.global.Some? ==> x.passed == {})
    && (x.request.rate.Some? ==> |x.claimed| <= RateAllowance(x.snapshot, x.request, x.gate))
  }

  ghost predicate InOrder(x: Txn) {
    && (forall id :: id in x.locked ==> id in x.snapshot)
    && Distinct(x.locked) && Sorted(x.snapshot, x.locked)
    && forall id, y :: id in x.locked && y in Ahead(x) ==> Before(x.snapshot[id].row, x.snapshot[y].row)
  }

  ghost predicate Inv(s: State) {
    forall t :: t in s.txs ==> TxnOk(s, t, s.txs[t])
  }

  lemma LockKeepsOrder(x: Txn, id: Id)
    requires InOrder(x) && IsNext(x, id)
    ensures InOrder(x.(locked := x.locked + [id]))
  {
    assert Ahead(x.(locked := x.locked + [id])) <= Ahead(x);
  }

  /** The dequeue that locks a row. */
  lemma LockerOk(s: State, t: nat, id: Id, s': State)
    requires t in s.txs && TxnOk(s, t, s.txs[t]) && Next(s, Lock(t, id), s')
    ensures TxnOk(s', t, s'.txs[t])
  {
    var x, y := s.txs[t], s'.txs[t];
    LockKeepsOrder(x, id);
    LockedIsCandidate(s, x, id);
    assert y.locked[..y.tried] == x.locked[..x.tried];
    forall i | i in y.locked
      ensures i in s'.locks && s'.locks[i] == t && i in Eligible(y.snapshot, y.request)
      ensures IsEnqueued(s'.db, i) && IsEligible(s'.db[i].row, y.request)
    {
      assert i == id || i in x.locked;
    }
  }

  /** A row that may be locked is a candidate, in the snapshot and now. */
  lemma LockedIsCandidate(s: State, x: Txn, id: Id)
    requires IsNext(x, id) && MayLock(s, x, id)
    ensures id in Eligible(x.snapshot, x.request) && IsEnqueued(s.db, id) && IsEligible(s.db[id].row, x.request)
  {
  }

  lemma LockKeeps(s: State, t: nat, id: Id, s': State)
    requires Inv(s) && Next(s, Lock(t, id), s')
    ensures Inv(s')
  {
    LockerOk(s, t, id, s');
    forall u | u in s'.txs ensures TxnOk(s', u, s'.txs[u]) {
      assert TxnOk(s, u, s.txs[u]);
    }
  }

  lemma PassKeeps(s: State, t: nat, id: Id, s': State)
    requires Inv(s) && Next(s, Pass(t, id), s')
    ensures Inv(s')
  {
    forall u | u in s'.txs ensures TxnOk(s', u, s'.txs[u]) {
      assert TxnOk(s, u, s.txs[u]);
      assert Ahead(s'.txs[u]) <= Ahead(s.txs[u]);
    }
  }

  lemma CommitKeeps(s: State, t: nat, now: int)
    requires Inv(s) && t in s.txs
    ensures Inv(Committed(s, t, now))
  {
    var s' := Committed(s, t, now);
    assert TxnOk(s, t, s.txs[t]);
    forall u | u in s'.txs ensures TxnOk(s', u, s'.txs[u]) {
      OtherCommits(s, t, now, u);
    }
  }

  /** The locks of another dequeue keep its candidates as they were. */
  lemma OtherCommits(s: State, t: nat, now: int, u: nat)
    requires t in s.txs && u in s.txs && t != u && TxnOk(s, t, s.txs[t]) && TxnOk(s, u, s.txs[u])
    ensures TxnOk(Committed(s, t, now), u, s.txs[u])
  {
    var x, y, s' := s.txs[t], s.txs[u], Committed(s, t, now);
    assert forall id :: id in x.claimed ==> id in x.locked;
    forall id | id in y.locked ensures id in s'.locks && id !in x.claimed && s'.db[id] == s.db[id] {
      assert id in s.locks && s.locks[id] == u;
    }
  }

  /** The dequeue whose update matches. */
  lemma ClaimerOk(s: State, t: nat, s': State)
    requires t in s.txs && TxnOk(s, t, s.txs[t]) && Next(s, Claim(t), s')
    ensures TxnOk(s', t, s'.txs[t])
  {
    var x, y := s.txs[t], s'.txs[t];
    assert y.claimed == x.locked[..x.tried + 1];
    assert Ahead(y) == Ahead(x);
  }

  lemma ClaimKeeps(s: State, t: nat, s': State)
    requires Inv(s) && Next(s, Claim(t), s')
    ensures Inv(s')
  {
    ClaimerOk(s, t, s');
    forall u | u in s'.txs ensures TxnOk(s', u, s'.txs[u]) {
      assert TxnOk(s, u, s.txs[u]);
    }
  }

  lemma WriteKeeps(s: State, id: Id, row: Option<Workflow>, s': State)
    requires Inv(s) && Next(s, Write(id, row), s')
    ensures Inv(s')
  {
    forall u | u in s'.txs ensures TxnOk(s', u, s'.txs[u]) {
      assert TxnOk(s, u, s.txs[u]);
      WriteSpares(s, id, s', u, s.txs[u]);
    }
  }

  /** A write waits for the locks of a dequeue. */
  lemma WriteSpares(s: State, id: Id, s': State, u: nat, x: Txn)
    requires TxnOk(s, u, x) && id !in s.locks && s'.locks == s.locks
    requires forall i :: i in s.db && i != id ==> i in s'.db && s'.db[i] == s.db[i]
    ensures TxnOk(s', u, x)
  {
    forall i | i in x.locked ensures IsEnqueued(s'.db, i) && IsEligible(s'.db[i].row, x.request) {
      assert i != id;
    }
  }

  lemma EndsKeep(s: State, l: Label, s': State)
    requires Inv(s) && Next(s, l, s') && (l.Begin? || l.Rollback?)
    ensures Inv(s')
  {
    forall u | u in s'.txs ensures TxnOk(s', u, s'.txs[u]) {
      assert u in s.txs ==> TxnOk(s, u, s.txs[u]);
    }
  }

  lemma NextKeeps(s: State, l: Label, s': State)
    requires Inv(s) && Next(s, l, s')
    ensures Inv(s')
  {
    match l
    case Lock(t, id) => LockKeeps(s, t, id, s');
    case Pass(t, id) => PassKeeps(s, t, id, s');
    case Claim(t) => ClaimKeeps(s, t, s');
    case Commit(t, now) => CommitKeeps(s, t, now);
    case Write(id, row) => WriteKeeps(s, id, row, s');
    case _ => EndsKeep(s, l, s');
  }

  lemma {:induction false} RunKeeps(ss: seq<State>, ls: seq<Label>, i: nat)
    requires Run(ss, ls) && i < |ss|
    ensures Inv(ss[i])
  {
    if i > 0 {
      RunKeeps(ss, ls, i - 1);
      assert Next(ss[i - 1], ls[i - 1], ss[i]);
      NextKeeps(ss[i - 1], ls[i - 1], ss[i]);
    }
  }

  // ---- exclusivity --------------------------------------------------------------------------------------------

  /** The conditional update of a locked row always matches: nobody can have claimed it in between. */
  lemma ClaimsMatch(ss: seq<State>, ls: seq<Label>, i: nat)
    requires Run(ss, ls) && i < |ls| && ls[i].Claim?
    ensures ls[i].t in ss[i].txs && ls[i].t in ss[i + 1].txs
    ensures var x, y := ss[i].txs[ls[i].t], ss[i + 1].txs[ls[i].t];
      x.tried < |x.locked| && y.claimed == x.claimed + [x.locked[x.tried]]
  {
    RunKeeps(ss, ls, i);
    assert Next(ss[i], ls[i], ss[i + 1]);
    assert TxnOk(ss[i], ls[i].t, ss[i].txs[ls[i].t]);
  }

  /** Step `i` commits a claim of the row. */
  ghost predicate Claimed(ss: seq<State>, ls: seq<Label>, i: nat, id: Id)
    requires Run(ss, ls)
  {
    i < |ls| && ls[i].Commit? && ls[i].t in ss[i].txs && id in ss[i].txs[ls[i].t].claimed
  }

  lemma CommitTakes(ss: seq<State>, ls: seq<Label>, i: nat, id: Id)
    requires Run(ss, ls) && Claimed(ss, ls, i, id)
    ensures IsEnqueued(ss[i].db, id) && !IsEnqueued(ss[i + 1].db, id)
  {
    RunKeeps(ss, ls, i);
    assert Next(ss[i], ls[i], ss[i + 1]);
    assert TxnOk(ss[i], ls[i].t, ss[i].txs[ls[i].t]);
  }

  /** Another transaction put the row back into its queue. */
  ghost predicate PutBack(ss: seq<State>, ls: seq<Label>, k: nat, id: Id)
    requires Run(ss, ls)
  {
    && k < |ls| && ls[k].Write? && ls[k].id == id && ls[k].row.Some? && ls[k].row.value.row.status.Enqueued?
    && !IsEnqueued(ss[k].db, id)
  }

  lemma {:induction false} BackToEnqueued(ss: seq<State>, ls: seq<Label>, i: nat, j: nat, id: Id)
    returns (k: nat)
    requires Run(ss, ls) && i < j < |ss| && !IsEnqueued(ss[i].db, id) && IsEnqueued(ss[j].db, id)
    ensures i <= k < j && PutBack(ss, ls, k, id)
    decreases j
  {
    k := j - 1;
    assert Next(ss[k], ls[k], ss[j]);
    if IsEnqueued(ss[k].db, id) {
      k := BackToEnqueued(ss, ls, i, k, id);
    }
  }

  /** Claim exclusivity: between two committed claims of one row, it went back to ENQUEUED. */
  lemma ClaimsAreExclusive(ss: seq<State>, ls: seq<Label>, i: nat, j: nat, id: Id) returns (k: nat)
    requires Run(ss, ls) && i < j && Claimed(ss, ls, i, id) && Claimed(ss, ls, j, id)
    ensures i < k < j && PutBack(ss, ls, k, id)
  {
    CommitTakes(ss, ls, i, id);
    CommitTakes(ss, ls, j, id);
    k := BackToEnqueued(ss, ls, i + 1, j, id);
  }

  // ---- statements and the atomic dequeue ----------------------------------------------------------------------

  /** A query that skipped nothing has locked a selection of its snapshot. */
  lemma LockedIsSelection(x: Txn)
    requires InOrder(x) && Selected(x) && x.passed == {} && |x.locked| <= TaskAllowance(x.snapshot, x.request)
    requires forall id :: id in x.locked ==> id in Eligible(x.snapshot, x.request)
    ensures IsSelection(x.snapshot, Eligible(x.snapshot, x.request), x.locked, TaskAllowance(x.snapshot, x.request))
  {
    var from := Eligible(x.snapshot, x.request);
    ElementCount(x.locked);
    assert Elements(x.locked) <= from;
    SubsetCount(Elements(x.locked), from);
    if Ahead(x) == {} {
      assert Elements(x.locked) == from;
    }
  }

  /** A committed dequeue that skipped nothing, hence every one under a global cap, claims exactly what the atomic
      dequeue claims of its snapshot. */
  lemma CommitIsSelection(ss: seq<State>, ls: seq<Label>, i: nat)
    requires Run(ss, ls) && i < |ls| && ls[i].Commit? && ls[i].t in ss[i].txs
    requires ss[i].txs[ls[i].t].passed == {} || ss[i].txs[ls[i].t].request.global.Some?
    ensures var x := ss[i].txs[ls[i].t];
      IsSelection(x.snapshot, Eligible(x.snapshot, x.request), x.claimed, Allowance(x.snapshot, x.request, x.gate))
  {
    RunKeeps(ss, ls, i);
    assert Next(ss[i], ls[i], ss[i + 1]);
    var x := ss[i].txs[ls[i].t];
    assert TxnOk(ss[i], ls[i].t, x);
    LockedIsSelection(x);
    var tasks, all := TaskAllowance(x.snapshot, x.request), Allowance(x.snapshot, x.request, x.gate);
    SelectionShortens(x.snapshot, Eligible(x.snapshot, x.request), x.locked, tasks, all);
    assert |x.claimed| == Min(|x.locked|, all);
  }

  /** When besides nothing was written since its snapshot, its commit is the atomic dequeue. */
  lemma UndisturbedIsAtomic(ss: seq<State>, ls: seq<Label>, i: nat)
    requires Run(ss, ls) && i < |ls| && ls[i].Commit? && ls[i].t in ss[i].txs && ss[i].txs[ls[i].t].snapshot == ss[i].db
    requires ss[i].txs[ls[i].t].passed == {} || ss[i].txs[ls[i].t].request.global.Some?
    ensures var x := ss[i].txs[ls[i].t];
      Dequeued(ss[i].db, x.request, x.gate, ls[i].now, x.claimed, ss[i + 1].db)
  {
    CommitIsSelection(ss, ls, i);
    assert Next(ss[i], ls[i], ss[i + 1]);
  }

  // ---- when the cap holds -------------------------------------------------------------------------------------

  /** Every dequeue of the queue uses the cap `n` and, exactly on a partitioned queue, a partition. */
  ghost predicate AllCapped(ls: seq<Label>, queue: string, partition: Option<string>, n: nat) {
    forall i :: 0 <= i < |ls| && ls[i].Begin? && ls[i].request.queue == queue ==>
      ls[i].request.global == Some(n) && (ls[i].request.partition.Some? <==> partition.Some?)
  }

  /** No other transaction starts a queued row (QueueTheorems.OnlyDequeuesStart). */
  ghost predicate OnlyDequeuesStart(ss: seq<State>, ls: seq<Label>, queue: string, partition: Option<string>)
    requires |ss| == |ls| + 1
  {
    forall i :: 0 <= i < |ls| && ls[i].Write? ==>
      Running(ss[i + 1].db, queue, partition) <= Running(ss[i].db, queue, partition)
  }

  ghost predicate CommitsIn(ss: seq<State>, ls: seq<Label>, i: nat, queue: string, partition: Option<string>)
    requires |ss| == |ls| + 1 && i < |ls|
  {
    && ls[i].Commit? && ls[i].t in ss[i].txs
    && ss[i].txs[ls[i].t].request.queue == queue && ss[i].txs[ls[i].t].request.partition == partition
  }

  /** Step `i` takes the snapshot of the dequeue `t` that is in flight until state `j`. */
  ghost predicate BeginsAt(ss: seq<State>, ls: seq<Label>, i: nat, t: nat, j: nat)
    requires |ss| == |ls| + 1
  {
    && i < j < |ss| && ls[i].Begin? && ls[i].t == t && forall m :: i < m <= j ==> t in ss[m].txs
  }

  /** The dequeues of a scope take turns: none commits between the snapshot and the commit of another. */
  ghost predicate TakeTurns(ss: seq<State>, ls: seq<Label>, queue: string, partition: Option<string>)
    requires |ss| == |ls| + 1
  {
    forall i, k, j ::
      (0 <= i < k < j < |ls| && CommitsIn(ss, ls, j, queue, partition) && BeginsAt(ss, ls, i, ls[j].t, j)) ==>
        !CommitsIn(ss, ls, k, queue, partition)
  }

  lemma {:induction false} SnapshotTaken(ss: seq<State>, ls: seq<Label>, j: nat, t: nat) returns (i: nat)
    requires Run(ss, ls) && j < |ss| && t in ss[j].txs
    ensures BeginsAt(ss, ls, i, t, j)
    ensures ss[j].txs[t].snapshot == ss[i].db && ss[j].txs[t].request == ls[i].request
  {
    i := j - 1;
    assert Next(ss[i], ls[i], ss[j]);
    if !(ls[i].Begin? && ls[i].t == t) {
      i := SnapshotTaken(ss, ls, j - 1, t);
    }
  }

  /** The claims of a dequeue are candidates of its query. */
  lemma ClaimedEligible(ss: seq<State>, ls: seq<Label>, i: nat) returns (b: nat)
    requires Run(ss, ls) && i < |ls| && ls[i].Commit? && ls[i].t in ss[i].txs
    ensures var x := ss[i].txs[ls[i].t];
      && b < |ls| && ls[b].Begin? && ls[b].request == x.request && |x.claimed| <= TaskAllowance(x.snapshot, x.request)
      && forall id :: id in x.claimed ==> id in ss[i].db && IsEligible(ss[i].db[id].row, x.request)
  {
    RunKeeps(ss, ls, i);
    var x := ss[i].txs[ls[i].t];
    assert TxnOk(ss[i], ls[i].t, x);
    assert forall id :: id in x.claimed ==> id in x.locked;
    b := SnapshotTaken(ss, ls, i, ls[i].t);
  }

  lemma ClaimsRun(db: Db, ids: seq<Id>, request: DequeueInput, now: int, queue: string, partition: Option<string>)
    ensures Running(ClaimRows(db, ids, request, now), queue, partition) <= Running(db, queue, partition) + Elements(ids)
  {
  }

  lemma OtherClaimsRun(db: Db, ids: seq<Id>, request: DequeueInput, now: int, queue: string, partition: Option<string>)
    requires forall id :: id in ids ==> id in db && IsEligible(db[id].row, request)
    requires request.queue != queue || (request.partition.Some? && partition.Some? && request.partition != partition)
    ensures Running(ClaimRows(db, ids, request, now), queue, partition) <= Running(db, queue, partition)
  {
    forall id | id in ids ensures !InQueue(db[id].row, queue, partition) {
      assert IsEligible(db[id].row, request);
    }
  }

  /** Only the commit of a dequeue of a scope starts rows there. */
  lemma RunningGrows(ss: seq<State>, ls: seq<Label>, i: nat, queue: string, partition: Option<string>, n: nat)
    requires Run(ss, ls) && i < |ls|
    requires AllCapped(ls, queue, partition, n) && OnlyDequeuesStart(ss, ls, queue, partition)
    ensures var before, after := Running(ss[i].db, queue, partition), Running(ss[i + 1].db, queue, partition);
      if CommitsIn(ss, ls, i, queue, partition)
      then after <= before + Elements(ss[i].txs[ls[i].t].claimed) else after <= before
  {
    assert Next(ss[i], ls[i], ss[i + 1]);
    if ls[i].Commit? {
      var x := ss[i].txs[ls[i].t];
      var b := ClaimedEligible(ss, ls, i);
      if CommitsIn(ss, ls, i, queue, partition) {
        ClaimsRun(ss[i].db, x.claimed, x.request, ls[i].now, queue, partition);
      } else {
        OtherClaimsRun(ss[i].db, x.claimed, x.request, ls[i].now, queue, partition);
      }
    }
  }

  lemma RunningRests(ss: seq<State>, ls: seq<Label>, i: nat, queue: string, partition: Option<string>, n: nat)
    requires Run(ss, ls) && 0 < i < |ss| && !CommitsIn(ss, ls, i - 1, queue, partition)
    requires AllCapped(ls, queue, partition, n) && OnlyDequeuesStart(ss, ls, queue, partition)
    ensures Running(ss[i].db, queue, partition) <= Running(ss[i - 1].db, queue, partition)
  {
    RunningGrows(ss, ls, i - 1, queue, partition, n);
  }

  lemma {:induction false} RunningShrinks(
    ss: seq<State>, ls: seq<Label>, i: nat, j: nat, queue: string, partition: Option<string>, n: nat)
    requires Run(ss, ls) && i <= j < |ss|
    requires AllCapped(ls, queue, partition, n) && OnlyDequeuesStart(ss, ls, queue, partition)
    requires forall k :: i <= k < j ==> !CommitsIn(ss, ls, k, queue, partition)
    ensures Running(ss[j].db, queue, partition) <= Running(ss[i].db, queue, partition)
    decreases j
  {
    if i < j {
      RunningShrinks(ss, ls, i, j - 1, queue, partition, n);
      RunningRests(ss, ls, j, queue, partition, n);
      SubsetThrough(Running(ss[j].db, queue, partition), Running(ss[j - 1].db, queue, partition),
                    Running(ss[i].db, queue, partition));
    }
  }

  /** A capped dequeue claims no more than the free slots of its snapshot. */
  lemma ClaimsFit(x: Txn, n: nat)
    requires x.request.global == Some(n) && x.claimed != [] && |x.claimed| <= TaskAllowance(x.snapshot, x.request)
    ensures |Running(x.snapshot, x.request.queue, x.request.partition)| + |x.claimed| <= n
  {
  }

  lemma CommitKeepsCap(ss: seq<State>, ls: seq<Label>, j: nat, queue: string, partition: Option<string>, n: nat)
    requires Run(ss, ls) && j < |ls| && CommitsIn(ss, ls, j, queue, partition)
    requires AllCapped(ls, queue, partition, n) && OnlyDequeuesStart(ss, ls, queue, partition)
    requires TakeTurns(ss, ls, queue, partition)
    ensures |Running(ss[j + 1].db, queue, partition)| <= n
  {
    RunKeeps(ss, ls, j);
    assert Next(ss[j], ls[j], ss[j + 1]);
    var x := ss[j].txs[ls[j].t];
    assert TxnOk(ss[j], ls[j].t, x);
    var i := SnapshotTaken(ss, ls, j, ls[j].t);
    assert !CommitsIn(ss, ls, i, queue, partition);
    RunningShrinks(ss, ls, i, j, queue, partition, n);
    RunningGrows(ss, ls, j, queue, partition, n);
    ClaimsFit(x, n);
    ElementCount(x.claimed);
    CoverBound(Running(ss[j + 1].db, queue, partition), Running(ss[j].db, queue, partition),
               Running(x.snapshot, queue, partition), Elements(x.claimed), n);
  }

  /** The cap holds at statement level, in every state, when the dequeues of a scope take turns. */
  lemma {:induction false} TurnsKeepCap(
    ss: seq<State>, ls: seq<Label>, i: nat, queue: string, partition: Option<string>, n: nat)
    requires Run(ss, ls) && i < |ss|
    requires AllCapped(ls, queue, partition, n) && OnlyDequeuesStart(ss, ls, queue, partition)
    requires TakeTurns(ss, ls, queue, partition)
    ensures |Running(ss[i].db, queue, partition)| <= n
  {
    if i == 0 {
      assert Running(ss[0].db, queue, partition) == {};
    } else if CommitsIn(ss, ls, i - 1, queue, partition) {
      CommitKeepsCap(ss, ls, i - 1, queue, partition, n);
    } else {
      TurnsKeepCap(ss, ls, i - 1, queue, partition, n);
      RunningRests(ss, ls, i, queue, partition, n);
      SubsetCount(Running(ss[i].db, queue, partition), Running(ss[i - 1].db, queue, partition));
    }
  }
}
