/** The global cap and the sliding rate window, over every run of all row transactions. */
module QueueTheorems {
  import opened Wrappers
  import opened Tables
  import opened StatusTable
  import opened Counting
  import opened Queue
  import opened RowMachine
  import opened RowTheorems

  /** What all executors agree on about a queue. */
  datatype Limits = Limits(partitioned: bool, global: Option<nat>, rate: Option<RateLimit>)

  type Config = string -> Limits

  /** Dequeues use the limits of their queue, and a partition exactly on a partitioned one. */
  predicate Follows(cfg: Config, c: Change) {
    c.Dequeue? ==>
      var l, d := cfg(c.request.queue), c.request;
      d.global == l.global && d.rate == l.rate && (d.partition.Some? <==> l.partitioned)
  }

  ghost predicate FollowsAll(cfg: Config, cs: seq<Change>) {
    forall k :: 0 <= k < |cs| ==> Follows(cfg, cs[k])
  }

  /** The scope of the limits: one partition, or a queue without partitions. */
  predicate IsScope(cfg: Config, queue: string, partition: Option<string>) {
    partition.Some? <==> cfg(queue).partitioned
  }

  // ---- what one row can do ------------------------------------------------------------------------------

  /** Only a claim makes a queued row run. */
  lemma RunningMoves(c: Change, row: Row, row': Row, queue: string, partition: Option<string>)
    requires RowMoves(c, row, row') && RowOk(row)
    requires InQueue(row', queue, partition) && row'.status.Pending?
    ensures InQueue(row, queue, partition) && (row.status.Pending? || Claims(c, row, row'))
  {
    match c
    case Start(input, _, _) => TouchRuns(row, input);
    case Enqueue(input, _) => TouchRuns(row, input);
    case Finish(_, result, now) => EndRuns(row, result, "", now);
    case Cancel(_, now) => EndRuns(row, Ok(""), "", now);
    case Resume(_, to, now) => EndRuns(row, Ok(""), to, now);
    case _ =>
  }

  /** A touch moves no row into a queue or to PENDING; dead-lettering takes it out of both. */
  lemma TouchRuns(row: Row, input: InsertInput)
    ensures var t := Touch(row, input);
      && t.status == row.status && t.queue == row.queue && t.partition == row.partition
      && (DeadLetter(t) == t || !DeadLetter(t).status.Pending?)
  {
  }

  /** An outcome, a cancellation and a resume start no row. */
  lemma EndRuns(row: Row, result: Result<string, string>, to: string, now: int)
    ensures FinishRow(row, result, now) == row || !FinishRow(row, result, now).status.Pending?
    ensures CancelRow(row, now) == row || !CancelRow(row, now).status.Pending?
    ensures ResumeRow(row, to, now) == row || !ResumeRow(row, to, now).status.Pending?
  {
  }

  lemma RunningEnters(c: Change, db: Db, row: Row, queue: string, partition: Option<string>)
    requires RowEnters(c, db, row)
    ensures !(InQueue(row, queue, partition) && row.status.Pending?)
    ensures row.startedAt.None?
  {
  }

  /** Only a claim sets a start time. */
  lemma StartedMoves(c: Change, row: Row, row': Row, queue: string, partition: Option<string>)
    requires RowMoves(c, row, row') && RowOk(row)
    requires InQueue(row', queue, partition) && row'.startedAt.Some?
    ensures InQueue(row, queue, partition)
    ensures (row.startedAt == row'.startedAt && row.rateLimited == row'.rateLimited) || Claims(c, row, row')
  {
  }

  // ---- global concurrency -------------------------------------------------------------------------------

  /** The rows a change claims from one scope; a change that does not dequeue there claims none. */
  ghost function ClaimedIn(c: Change, queue: string, partition: Option<string>): set<Id> {
    if c.Dequeue? && c.request.queue == queue && c.request.partition == partition then Elements(c.claimed) else {}
  }

  /** A claim in a scope is made by a dequeue of that scope. */
  lemma ClaimsInScope(cfg: Config, c: Change, db: Db, db': Db, queue: string, partition: Option<string>, id: Id)
    requires Changes(c, db, db') && Follows(cfg, c) && IsScope(cfg, queue, partition)
    requires id in db && id in db' && db'[id].row != db[id].row && Claims(c, db[id].row, db'[id].row)
    requires InQueue(db[id].row, queue, partition)
    ensures id in ClaimedIn(c, queue, partition)
  {
  }

  lemma RunningGrows(cfg: Config, c: Change, db: Db, db': Db, queue: string, partition: Option<string>)
    requires DbOk(db) && Changes(c, db, db') && Follows(cfg, c) && IsScope(cfg, queue, partition)
    ensures Running(db', queue, partition) <= Running(db, queue, partition) + ClaimedIn(c, queue, partition)
  {
    forall id | id in Running(db', queue, partition)
      ensures id in Running(db, queue, partition) || id in ClaimedIn(c, queue, partition)
    {
      ChangeMoves(c, db, db', id);
      if id in db {
        RunningMoves(c, db[id].row, db'[id].row, queue, partition);
        if id !in Running(db, queue, partition) {
          ClaimsInScope(cfg, c, db, db', queue, partition, id);
        }
      } else {
        RunningEnters(c, db, db'[id].row, queue, partition);
      }
    }
  }

  /** No other transaction starts a queued row. */
  lemma OnlyDequeuesStart(c: Change, db: Db, db': Db, queue: string, partition: Option<string>)
    requires DbOk(db) && Changes(c, db, db') && !c.Dequeue?
    ensures Running(db', queue, partition) <= Running(db, queue, partition)
  {
    forall id | id in Running(db', queue, partition) ensures id in Running(db, queue, partition) {
      ChangeMoves(c, db, db', id);
      if id in db {
        RunningMoves(c, db[id].row, db'[id].row, queue, partition);
      } else {
        RunningEnters(c, db, db'[id].row, queue, partition);
      }
    }
  }

  /** A dequeue claims no more than the free global slots. */
  lemma ClaimsWithinCap(cfg: Config, c: Change, db: Db, db': Db, queue: string, partition: Option<string>)
    requires Changes(c, db, db') && Follows(cfg, c) && cfg(queue).global.Some? && ClaimedIn(c, queue, partition) != {}
    ensures |Running(db, queue, partition)| + |ClaimedIn(c, queue, partition)| <= cfg(queue).global.value
  {
    ElementCount(c.claimed);
  }

  lemma CapStays(cfg: Config, c: Change, db: Db, db': Db, queue: string, partition: Option<string>)
    requires DbOk(db) && Changes(c, db, db') && Follows(cfg, c) && IsScope(cfg, queue, partition)
    requires cfg(queue).global.Some? && |Running(db, queue, partition)| <= cfg(queue).global.value
    ensures |Running(db', queue, partition)| <= cfg(queue).global.value
  {
    RunningGrows(cfg, c, db, db', queue, partition);
    CoverCount(Running(db', queue, partition), Running(db, queue, partition), ClaimedIn(c, queue, partition));
    if ClaimedIn(c, queue, partition) != {} {
      ClaimsWithinCap(cfg, c, db, db', queue, partition);
    }
  }

  // ---- rate window --------------------------------------------------------------------------------------

  /** Rows of a scope started in (end - period, end]. */
  function Window(db: Db, queue: string, partition: Option<string>, end: int, period: nat): set<Id> {
    set id | id in db && InQueue(db[id].row, queue, partition) && db[id].row.startedAt.Some?
             && end - period < db[id].row.startedAt.value <= end
  }

  /** Rows started by a rate limited queue carry the mark the gate counts. */
  ghost predicate MarksOk(cfg: Config, db: Db) {
    forall id ::
      (id in db && db[id].row.startedAt.Some? && db[id].row.queue.Some? && cfg(db[id].row.queue.value).rate.Some?)
      ==> db[id].row.rateLimited
  }

  lemma MarksStay(cfg: Config, c: Change, db: Db, db': Db)
    requires DbOk(db) && Changes(c, db, db') && Follows(cfg, c) && MarksOk(cfg, db)
    ensures MarksOk(cfg, db')
  {
    forall id | id in db' && db'[id].row.startedAt.Some? && db'[id].row.queue.Some?
      && cfg(db'[id].row.queue.value).rate.Some?
      ensures db'[id].row.rateLimited
    {
      ChangeMoves(c, db, db', id);
      if id in db {
        StartedMoves(c, db[id].row, db'[id].row, db'[id].row.queue.value, None);
      } else {
        RunningEnters(c, db, db'[id].row, "", None);
      }
    }
  }

  lemma WindowGrows(
    cfg: Config, c: Change, db: Db, db': Db, queue: string, partition: Option<string>, end: int, period: nat)
    requires DbOk(db) && Changes(c, db, db') && Follows(cfg, c) && IsScope(cfg, queue, partition)
    ensures Window(db', queue, partition, end, period)
         <= Window(db, queue, partition, end, period) + ClaimedIn(c, queue, partition)
    ensures c.Dequeue? && !(end - period < c.now <= end) ==>
      Window(db', queue, partition, end, period) <= Window(db, queue, partition, end, period)
  {
    forall id | id in Window(db', queue, partition, end, period)
      ensures id in Window(db, queue, partition, end, period)
        || (id in ClaimedIn(c, queue, partition) && end - period < c.now <= end)
    {
      ChangeMoves(c, db, db', id);
      if id in db {
        StartedMoves(c, db[id].row, db'[id].row, queue, partition);
        if id !in Window(db, queue, partition, end, period) {
          ClaimsInScope(cfg, c, db, db', queue, partition, id);
        }
      } else {
        RunningEnters(c, db, db'[id].row, queue, partition);
      }
    }
  }

  /** The gate, which reads the clock first, counts every row of a window the claims fall into. */
  lemma GateSees(cfg: Config, db: Db, queue: string, partition: Option<string>, end: int, period: nat, cutoff: int)
    requires DbOk(db) && MarksOk(cfg, db) && cutoff <= end - period && cfg(queue).rate.Some?
    ensures Window(db, queue, partition, end, period) <= Recent(db, queue, partition, cutoff)
  {
  }

  /** A dequeue claims no more than the rate limit leaves. */
  lemma ClaimsWithinRate(cfg: Config, c: Change, db: Db, db': Db, queue: string, partition: Option<string>, cutoff: int)
    requires Changes(c, db, db') && Follows(cfg, c) && cfg(queue).rate.Some? && ClaimedIn(c, queue, partition) != {}
    requires cutoff == c.gate - cfg(queue).rate.value.period
    ensures |Recent(db, queue, partition, cutoff)| + |ClaimedIn(c, queue, partition)| <= cfg(queue).rate.value.limit
  {
    ElementCount(c.claimed);
  }

  lemma GateIsFirst(c: Change, db: Db, db': Db)
    requires Changes(c, db, db') && c.Dequeue?
    ensures c.gate <= c.now
  {
  }

  /** A window the claims fall into. */
  lemma WindowFills(
    cfg: Config, c: Change, db: Db, db': Db, queue: string, partition: Option<string>, end: int, l: RateLimit)
    requires DbOk(db) && MarksOk(cfg, db) && Changes(c, db, db') && Follows(cfg, c) && IsScope(cfg, queue, partition)
    requires cfg(queue).rate == Some(l) && c.Dequeue? && ClaimedIn(c, queue, partition) != {} && c.now <= end
    ensures |Window(db', queue, partition, end, l.period)| <= l.limit
  {
    var cutoff := c.gate - l.period;
    GateIsFirst(c, db, db');
    WindowGrows(cfg, c, db, db', queue, partition, end, l.period);
    GateSees(cfg, db, queue, partition, end, l.period, cutoff);
    ClaimsWithinRate(cfg, c, db, db', queue, partition, cutoff);
    CoverBound(Window(db', queue, partition, end, l.period), Window(db, queue, partition, end, l.period),
               Recent(db, queue, partition, cutoff), ClaimedIn(c, queue, partition), l.limit);
  }

  /** At most `limit` rows of a scope started in the period up to `end`. */
  ghost predicate WithinRate(db: Db, queue: string, partition: Option<string>, end: int, l: RateLimit) {
    |Window(db, queue, partition, end, l.period)| <= l.limit
  }

  lemma WindowStays(
    cfg: Config, c: Change, db: Db, db': Db, queue: string, partition: Option<string>, end: int, l: RateLimit)
    requires DbOk(db) && MarksOk(cfg, db) && Changes(c, db, db') && Follows(cfg, c) && IsScope(cfg, queue, partition)
    requires cfg(queue).rate == Some(l) && WithinRate(db, queue, partition, end, l)
    ensures WithinRate(db', queue, partition, end, l)
  {
    if ClaimedIn(c, queue, partition) != {} && end - l.period < c.now <= end {
      WindowFills(cfg, c, db, db', queue, partition, end, l);
    } else {
      WindowGrows(cfg, c, db, db', queue, partition, end, l.period);
      SubsetCount(Window(db', queue, partition, end, l.period), Window(db, queue, partition, end, l.period));
    }
  }

  // ---- every run ----------------------------------------------------------------------------------------

  /** The limits of one scope are kept, and what their proofs rest on. */
  ghost predicate Limited(cfg: Config, db: Db, queue: string, partition: Option<string>, end: int) {
    && DbOk(db) && MarksOk(cfg, db)
    && (cfg(queue).global.Some? ==> |Running(db, queue, partition)| <= cfg(queue).global.value)
    && (cfg(queue).rate.Some? ==> WithinRate(db, queue, partition, end, cfg(queue).rate.value))
  }

  lemma NothingLimited(cfg: Config, db: Db, queue: string, partition: Option<string>, end: int)
    requires db == map[]
    ensures Limited(cfg, db, queue, partition, end)
  {
    assert Running(db, queue, partition) == {};
    assert cfg(queue).rate.Some? ==> Window(db, queue, partition, end, cfg(queue).rate.value.period) == {};
  }

  lemma LimitedStays(cfg: Config, c: Change, db: Db, db': Db, queue: string, partition: Option<string>, end: int)
    requires Limited(cfg, db, queue, partition, end)
    requires Changes(c, db, db') && Follows(cfg, c) && IsScope(cfg, queue, partition)
    ensures Limited(cfg, db', queue, partition, end)
  {
    DbStaysOk(c, db, db');
    MarksStay(cfg, c, db, db');
    if cfg(queue).global.Some? {
      CapStays(cfg, c, db, db', queue, partition);
    }
    if cfg(queue).rate.Some? {
      WindowStays(cfg, c, db, db', queue, partition, end, cfg(queue).rate.value);
    }
  }

  lemma LimitedNext(cfg: Config, b: Book, c: Change, b': Book, queue: string, partition: Option<string>, end: int)
    requires Limited(cfg, b.db, queue, partition, end)
    requires Step(b, c, b') && Follows(cfg, c) && IsScope(cfg, queue, partition)
    ensures Limited(cfg, b'.db, queue, partition, end)
  {
    LimitedStays(cfg, c, b.db, b'.db, queue, partition, end);
  }

  lemma {:induction false} RunLimited(
    cfg: Config, bs: seq<Book>, cs: seq<Change>, i: nat, queue: string, partition: Option<string>, end: int)
    requires Run(bs, cs) && FollowsAll(cfg, cs) && i < |bs| && IsScope(cfg, queue, partition)
    ensures Limited(cfg, bs[i].db, queue, partition, end)
  {
    if i == 0 {
      NothingLimited(cfg, bs[0].db, queue, partition, end);
    } else {
      RunLimited(cfg, bs, cs, i - 1, queue, partition, end);
      LimitedNext(cfg, bs[i - 1], cs[i - 1], bs[i], queue, partition, end);
    }
  }

  /** In every reachable state the PENDING rows of a queue, or of one partition of a partitioned
      queue, number at most its global concurrency. */
  lemma GlobalConcurrency(
    cfg: Config, bs: seq<Book>, cs: seq<Change>, i: nat, queue: string, partition: Option<string>)
    requires Run(bs, cs) && FollowsAll(cfg, cs) && i < |bs| && IsScope(cfg, queue, partition)
    requires cfg(queue).global.Some?
    ensures |Running(bs[i].db, queue, partition)| <= cfg(queue).global.value
  {
    RunLimited(cfg, bs, cs, i, queue, partition, 0);
  }

  /**
   In every reachable state and for every time `end`, the rows of a rate limited queue (or partition)
   started in (end - period, end] number at most the limit. Within a dequeue the gate reads the clock no
   later than the claim does; the clocks of different dequeues need not agree.
   */
  lemma SlidingRateWindow(
    cfg: Config, bs: seq<Book>, cs: seq<Change>, i: nat, queue: string, partition: Option<string>, end: int)
    requires Run(bs, cs) && FollowsAll(cfg, cs) && i < |bs| && IsScope(cfg, queue, partition)
    requires cfg(queue).rate.Some?
    ensures |Window(bs[i].db, queue, partition, end, cfg(queue).rate.value.period)| <= cfg(queue).rate.value.limit
  {
    RunLimited(cfg, bs, cs, i, queue, partition, end);
  }

  /** Every row a dequeue claims starts at its time: it is in the window of every period that time falls into. */
  lemma ClaimsEnterWindow(
    db: Db, input: DequeueInput, gate: int, now: int, ids: seq<Id>, db': Db, end: int, period: nat)
    requires Dequeued(db, input, gate, now, ids, db') && end - period < now <= end
    ensures Elements(ids) <= Window(db', input.queue, input.partition, end, period)
  {
    forall id | id in ids ensures id in Window(db', input.queue, input.partition, end, period) {
      ClaimedColumns(db, input, gate, now, ids, db', id);
      assert id in Eligible(db, input);
    }
  }

  /** In every reachable state a PENDING row of a queue has a start time, so the window misses none that runs. */
  lemma RunningHasStarted(bs: seq<Book>, cs: seq<Change>, i: nat, id: Id)
    requires Run(bs, cs) && i < |bs| && id in bs[i].db
    requires bs[i].db[id].row.status == Pending && bs[i].db[id].row.queue.Some?
    ensures bs[i].db[id].row.startedAt.Some?
  {
    RowsAlwaysOk(bs, cs, i, id);
  }

  // ---- no claimed work is lost ------------------------------------------------------------------------------

  /** Work claimed by an executor that dies is found when that executor recovers at the same version, and once
      put back it is eligible for the same dequeue again, at its old place in the order. */
  lemma ClaimedWorkReturns(db: Db, input: DequeueInput, gate: int, now: int, ids: seq<Id>, db': Db, id: Id, db'': Db)
    requires Dequeued(db, input, gate, now, ids, db') && id in ids && Changes(Clear(id), db', db'')
    ensures id in db && id in db' && Recoverable(db'[id].row, {input.executor}, input.version)
    ensures id in Eligible(db'', input)
    ensures Before(db''[id].row, db[id].row) && Before(db[id].row, db''[id].row)
  {
    assert id in Eligible(db, input);
  }

  /** A body that a start decided to run is found when the executor that runs it recovers, at the version its row
      was inserted with, for as long as the row is PENDING. */
  lemma StartedWorkIsFound(db: Db, input: InsertInput, maxRetries: int, recovery: bool, db': Db, version: string)
    requires Changes(Start(input, maxRetries, recovery), db, db') && input.row.executor.Some?
    requires RunsBody(InsertStatus(db, input, maxRetries).1, input.row.owner, recovery)
    ensures input.id in db'
    ensures db'[input.id].row.version == if input.id in db then db[input.id].row.version else input.row.version
    ensures Recoverable(db'[input.id].row, {input.row.executor.value}, version)
       <==> db'[input.id].row.status.Pending? && db'[input.id].row.version == Some(version)
    ensures input.id in db && !recovery ==> db[input.id].row.owner == input.row.owner
  {
  }

  // ---- what the retry limit does not bound ----------------------------------------------------------------

  /** How often the row has been claimed. */
  ghost function ClaimsOf(cs: seq<Change>, id: Id): nat {
    if cs == [] then 0
    else
      var c := cs[|cs| - 1];
      ClaimsOf(cs[..|cs| - 1], id) + if c.Dequeue? && id in c.claimed then 1 else 0
  }

  const QUEUED := Row(Enqueued, "f", None, Some("q"), None, None, Some("v"), 0, 0, 0, None, None, None, None, None, 0,
                      Some("o"), None, None, None, false, None, false)
  const POLL := DequeueInput("q", "e", "v", None, 0, None, None, 1, None)

  /** A database with one workflow, waiting in its queue without a counted attempt. */
  ghost predicate OneWaiting(b: Book) {
    && b.db.Keys == {"w"} && b.db["w"] == Unstarted(b.db["w"].row)
    && IsEligible(b.db["w"].row, POLL) && b.db["w"].row.attempts == 0 && "w" in b.tallies && b.tallies["w"].runs == 0
  }

  lemma EnqueueOne(m: int) returns (b: Book)
    ensures Step(Book(map[], map[], {}), Enqueue(InsertInput("w", QUEUED, 0), m), b) && OneWaiting(b)
  {
    var c := Enqueue(InsertInput("w", QUEUED, 0), m);
    var db := InsertStatus(map[], c.input, m).0;
    FreshIsAlive(map[], c.input, m);
    b := Book(db, map id | id in db :: Tallied(Book(map[], map[], {}), c, id), {"o"});
  }

  lemma ClaimOne(b: Book) returns (b': Book)
    requires OneWaiting(b)
    ensures Step(b, Dequeue(POLL, 0, 0, ["w"]), b') && b'.db.Keys == {"w"}
    ensures b'.db["w"] == Unstarted(ClaimRow(b.db["w"].row, POLL, 0)) && "w" in b'.tallies && b'.tallies["w"].runs == 0
  {
    var c := Dequeue(POLL, 0, 0, ["w"]);
    assert Eligible(b.db, POLL) == {"w"};
    assert IsSelection(b.db, {"w"}, ["w"], 1);
    var db := ClaimRows(b.db, ["w"], POLL, 0);
    b' := Book(db, map id | id in db :: Tallied(b, c, id), b.owners);
  }

  /** Recovery of a claimed row. */
  lemma ClearOne(b: Book) returns (b': Book)
    requires b.db.Keys == {"w"} && b.db["w"] == Unstarted(b.db["w"].row) && "w" in b.tallies && b.tallies["w"].runs == 0
    requires var r := b.db["w"].row;
      r.status.Pending? && InQueue(r, "q", None) && r.version == Some("v") && r.attempts == 0
    ensures Step(b, Clear("w"), b') && OneWaiting(b')
  {
    var db := UpdateRows(b.db, {"w"}, ClearRow);
    b' := Book(db, map id | id in db :: Tallied(b, Clear("w"), id), b.owners);
  }

  lemma RunExtends(bs: seq<Book>, cs: seq<Change>, c: Change, b: Book, id: Id)
    requires Run(bs, cs) && Step(bs[|cs|], c, b)
    ensures Run(bs + [b], cs + [c])
    ensures ClaimsOf(cs + [c], id) == ClaimsOf(cs, id) + if c.Dequeue? && id in c.claimed then 1 else 0
  {
    var bs', cs' := bs + [b], cs + [c];
    assert cs'[..|cs|] == cs;
    forall i | 0 <= i < |cs'| ensures Step(bs'[i], cs'[i], bs'[i + 1]) {
      if i < |cs| {
        assert Step(bs[i], cs[i], bs[i + 1]);
      }
    }
  }

  lemma OneCycle(bs: seq<Book>, cs: seq<Change>) returns (bs': seq<Book>, cs': seq<Change>)
    requires Run(bs, cs) && OneWaiting(bs[|cs|])
    ensures Run(bs', cs') && OneWaiting(bs'[|cs'|]) && ClaimsOf(cs', "w") == ClaimsOf(cs, "w") + 1
    ensures cs' == cs + [Dequeue(POLL, 0, 0, ["w"]), Clear("w")]
  {
    var b1 := ClaimOne(bs[|cs|]);
    var b2 := ClearOne(b1);
    bs', cs' := RunExtendsTwice(bs, cs, Dequeue(POLL, 0, 0, ["w"]), b1, Clear("w"), b2, "w");
  }

  lemma RunExtendsTwice(bs: seq<Book>, cs: seq<Change>, c: Change, b: Book, d: Change, e: Book, id: Id)
    returns (bs': seq<Book>, cs': seq<Change>)
    requires Run(bs, cs) && Step(bs[|cs|], c, b) && Step(b, d, e) && c.Dequeue? && id in c.claimed && !d.Dequeue?
    ensures Run(bs', cs') && bs'[|cs'|] == e && cs' == cs + [c, d] && ClaimsOf(cs', id) == ClaimsOf(cs, id) + 1
  {
    RunExtends(bs, cs, c, b, id);
    RunExtends(bs + [b], cs + [c], d, e, id);
    bs', cs' := bs + [b] + [e], cs + [c] + [d];
  }

  lemma NoCycle(m: int) returns (bs: seq<Book>, cs: seq<Change>)
    ensures Run(bs, cs) && OneWaiting(bs[|cs|]) && ClaimsOf(cs, "w") == 0
    ensures cs == [Enqueue(InsertInput("w", QUEUED, 0), m)]
  {
    var c := Enqueue(InsertInput("w", QUEUED, 0), m);
    var b := EnqueueOne(m);
    var none: seq<Change> := [];
    var first := [Book(map[], map[], {})];
    RunExtends(first, none, c, b, "w");
    bs, cs := first + [b], none + [c];
  }

  /** A dequeue does not count as an attempt: whatever the retry limit `m`, a queued workflow can be claimed and
      recovered any number of times. The limit bounds starts outside queues only (RowTheorems.RunsAreBounded). */
  lemma {:induction false} ClaimsAreUnbounded(m: int, n: nat) returns (bs: seq<Book>, cs: seq<Change>)
    ensures Run(bs, cs) && ClaimsOf(cs, "w") == n && OneWaiting(bs[|cs|])
    ensures forall k :: 0 <= k < |cs| && UsesToken(cs[k]) ==> cs[k].maxRetries == m
  {
    if n == 0 {
      bs, cs := NoCycle(m);
    } else {
      bs, cs := ClaimsAreUnbounded(m, n - 1);
      bs, cs := OneCycle(bs, cs);
    }
  }
}
