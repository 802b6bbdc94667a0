/**
 Live readers of a stream: `read_stream_entries` and the two loops that poll it while the log grows.
 A reader's polls see the tables of any later and later states; that each log extends the one before is
 a fact about the replay engine (LogsGrow).
 */
module StreamReader {
  import opened Wrappers
  import opened Tables
  import opened Operations
  import opened Histories
  import opened ForkProofs
  import opened Replay
  import opened ReplayProofs
  import opened ReplayTheorems
  import opened Effects

  datatype StreamEntry = StreamEntry(value: string, offset: nat, format: Option<string>)

  function EntryAt(streams: Streams, key: Key, o: nat): StreamEntry
    requires (key, o) in streams
  {
    StreamEntry(streams[(key, o)].value, o, streams[(key, o)].format)
  }

  /** WHERE key = key AND offset >= from ORDER BY offset ASC. */
  function RowsFrom(streams: Streams, key: Key, from: int): seq<StreamEntry>
    decreases NextOffset(streams, key) - from
  {
    if from >= NextOffset(streams, key) then []
    else
      (if from >= 0 && (key, from) in streams then [EntryAt(streams, key, from)] else [])
      + RowsFrom(streams, key, from + 1)
  }

  function Log(streams: Streams, key: Key): seq<StreamEntry> {
    RowsFrom(streams, key, 0)
  }

  function Start(from: int): nat {
    if from < 0 then 0 else from
  }

  /** The rows from an offset on are the tail of the log, each at its own offset. */
  lemma {:induction false} RowsAreTail(streams: Streams, key: Key, from: int)
    requires Contiguous(streams)
    ensures var n := NextOffset(streams, key); var rows := RowsFrom(streams, key, from);
      && |rows| == (if Start(from) <= n then n - Start(from) else 0)
      && forall k :: 0 <= k < |rows| ==>
        (key, Start(from) + k) in streams && rows[k] == EntryAt(streams, key, Start(from) + k)
    decreases NextOffset(streams, key) - from
  {
    if from < NextOffset(streams, key) {
      RowsAreTail(streams, key, from + 1);
      if from >= 0 {
        NextIsLength(streams, key, from);
      }
    }
  }

  // ---- read_stream_entries ------------------------------------------------------------------------------

  /** The rows before the first close sentinel, and whether there is one. */
  method ReadStreamEntries(streams: Streams, key: Key, from: int) returns (entries: seq<StreamEntry>, closed: bool)
    ensures var rows := RowsFrom(streams, key, from);
      && entries <= rows && (forall k :: 0 <= k < |entries| ==> entries[k].value != SENTINEL)
      && (closed ==> |entries| < |rows| && rows[|entries|].value == SENTINEL)
      && (!closed ==> entries == rows)
  {
    var rows := RowsFrom(streams, key, from);
    entries, closed := [], false;
    var i := 0;
    while i < |rows| && !closed
      invariant 0 <= i <= |rows| && entries == rows[..i]
      invariant forall k :: 0 <= k < i ==> rows[k].value != SENTINEL
      invariant closed ==> i < |rows| && rows[i].value == SENTINEL
      decreases |rows| - i, !closed
    {
      if rows[i].value == SENTINEL {
        closed := true;
      } else {
        entries := entries + [rows[i]];
        i := i + 1;
      }
    }
  }

  // ---- the reader loops ---------------------------------------------------------------------------------

  /** What one turn of the loop sees: the streams table, then the producer's status. */
  datatype Poll = Poll(streams: Streams, status: Option<Status>)

  datatype Ending = Waiting | Closed | Snapshot | Inactive | NoProducer | Undecodable(error: string)

  /** The logs a reader sees only grow, and are well shaped. */
  ghost predicate Growing(polls: seq<Poll>, key: Key) {
    && (forall i :: 0 <= i < |polls| ==> WellShaped(polls[i].streams))
    && (forall i, j :: 0 <= i <= j < |polls| ==> Log(polls[i].streams, key) <= Log(polls[j].streams, key))
  }

  ghost predicate IsValueOf<T>(entry: StreamEntry, decode: StreamEntry -> Result<T, string>, value: T) {
    entry.value != SENTINEL && decode(entry) == Ok(value)
  }

  /** `values` are exactly the decoded entries of the log from the first offset up to the cursor; none is the
      sentinel. */
  ghost predicate Gathered<T>(
    log: seq<StreamEntry>, decode: StreamEntry -> Result<T, string>, from: int, values: seq<T>, cursor: int)
  {
    || (values == [] && cursor == from)
    || (&& cursor == Start(from) + |values| && cursor <= |log|
        && forall k :: 0 <= k < |values| ==> IsValueOf(log[Start(from) + k], decode, values[k]))
  }

  /** All that a closed log holds from the first offset on, but its sentinel. */
  ghost predicate IsWhole<T>(
    log: seq<StreamEntry>, decode: StreamEntry -> Result<T, string>, from: int, values: seq<T>) {
    && |log| > 0 && log[|log| - 1].value == SENTINEL && Start(from) + |values| == |log| - 1
    && forall k :: 0 <= k < |values| ==> decode(log[Start(from) + k]) == Ok(values[k])
  }

  predicate IsActive(status: Status) {
    status.Pending? || status.Enqueued?
  }

  lemma GatheredGrows<T>(
    log: seq<StreamEntry>, log': seq<StreamEntry>, decode: StreamEntry -> Result<T, string>, from: int,
    values: seq<T>, cursor: int)
    requires Gathered(log, decode, from, values, cursor) && log <= log'
    ensures Gathered(log', decode, from, values, cursor)
  {
  }

  /** The entries of one poll continue what was gathered. */
  lemma EntriesContinue(streams: Streams, key: Key, cursor: int, entries: seq<StreamEntry>)
    requires WellShaped(streams) && entries <= RowsFrom(streams, key, cursor)
    ensures entries != [] ==> Start(cursor) + |entries| <= |Log(streams, key)|
    ensures forall k :: 0 <= k < |entries| ==>
      entries[k].offset == Start(cursor) + k && entries[k] == Log(streams, key)[Start(cursor) + k]
  {
    RowsAreTail(streams, key, cursor);
    RowsAreTail(streams, key, 0);
    forall k | 0 <= k < |entries|
      ensures entries[k].offset == Start(cursor) + k && entries[k] == Log(streams, key)[Start(cursor) + k]
    {
      assert entries[k] == RowsFrom(streams, key, cursor)[k];
    }
  }

  /** The sentinel is the last entry of its log. */
  lemma SentinelEnds(streams: Streams, key: Key, cursor: int, n: nat)
    requires WellShaped(streams) && n < |RowsFrom(streams, key, cursor)|
    requires RowsFrom(streams, key, cursor)[n].value == SENTINEL
    ensures var log := Log(streams, key);
      |log| > 0 && log[|log| - 1].value == SENTINEL && Start(cursor) + n == |log| - 1
  {
    RowsAreTail(streams, key, cursor);
    RowsAreTail(streams, key, 0);
    var last := NextOffset(streams, key) - 1;
    NextIsLength(streams, key, last);
    assert (key, Start(cursor) + n) in streams;
  }

  /** Decode the entries of one poll, moving the cursor past each; stop at the first that does not decode. */
  method Gather<T>(
    entries: seq<StreamEntry>, decode: StreamEntry -> Result<T, string>,
    ghost log: seq<StreamEntry>, from: int, values: seq<T>, cursor: int)
    returns (values': seq<T>, cursor': int, error: Option<string>)
    requires Gathered(log, decode, from, values, cursor)
    requires forall k :: 0 <= k < |entries| ==>
      && Start(cursor) + k < |log| && entries[k].offset == Start(cursor) + k && entries[k] == log[Start(cursor) + k]
      && entries[k].value != SENTINEL
    ensures Gathered(log, decode, from, values', cursor') && values <= values'
    ensures error.None? ==> |values'| == |values| + |entries|
    ensures error.None? && entries != [] ==> cursor' == Start(cursor) + |entries|
    ensures error.None? && entries == [] ==> cursor' == cursor
    ensures error.Some? ==> exists k :: 0 <= k < |entries| && decode(entries[k]) == Err(error.value)
  {
    values', cursor', error := values, cursor, None;
    var i := 0;
    while i < |entries| && error.None?
      invariant 0 <= i <= |entries| && values <= values' && Gathered(log, decode, from, values', cursor')
      invariant error.None? ==> |values'| == |values| + i && cursor' == (if i == 0 then cursor else Start(cursor) + i)
      invariant error.Some? ==> exists k :: 0 <= k < |entries| && decode(entries[k]) == Err(error.value)
      decreases |entries| - i, error.None?
    {
      match decode(entries[i])
      case Ok(v) =>
        values' := values' + [v];
        cursor' := entries[i].offset + 1;
        i := i + 1;
      case Err(e) =>
        error := Some(e);
    }
  }

  /** Everything the log of a poll has from the first offset on. */
  ghost predicate CaughtUp<T>(log: seq<StreamEntry>, from: int, values: seq<T>) {
    Start(from) <= |log| ==> Start(from) + |values| == |log|
  }

  /** One turn without a sentinel leaves nothing unread. */
  lemma TurnCatchesUp(streams: Streams, key: Key, cursor: int, entries: seq<StreamEntry>)
    requires WellShaped(streams) && entries == RowsFrom(streams, key, cursor)
    ensures Start(cursor) <= |Log(streams, key)| ==> Start(cursor) + |entries| == |Log(streams, key)|
    ensures Start(cursor) > |Log(streams, key)| ==> entries == []
  {
    RowsAreTail(streams, key, cursor);
    RowsAreTail(streams, key, 0);
  }

  /** What a reader that has made `turns` polls and ended, or waits for the next one, has gathered. */
  ghost predicate ReaderOk<T>(
    polls: seq<Poll>, turns: nat, key: Key, decode: StreamEntry -> Result<T, string>, from: int, values: seq<T>,
    cursor: int, ending: Ending)
    requires 0 < turns <= |polls|
  {
    var log := Log(polls[turns - 1].streams, key);
    && Gathered(log, decode, from, values, cursor)
    && match ending
       case Closed => IsWhole(log, decode, from, values)
       case Undecodable(error) => exists k :: 0 <= k < |log| && decode(log[k]) == Err(error)
       case Inactive =>
         CaughtUp(log, from, values) && polls[turns - 1].status !in {None, Some(Pending), Some(Enqueued)}
       case NoProducer => CaughtUp(log, from, values) && polls[turns - 1].status == None
       case Snapshot => CaughtUp(log, from, values)
       case Waiting => CaughtUp(log, from, values) && polls[turns - 1].status in {Some(Pending), Some(Enqueued)}
  }

  /** One turn of the loop: read, decode, and look for a reason to stop. */
  method Turn<T>(
    poll: Poll, key: Key, decode: StreamEntry -> Result<T, string>, from: int, snapshot: bool,
    values: seq<T>, cursor: int)
    returns (values': seq<T>, cursor': int, ending: Ending)
    requires WellShaped(poll.streams) && Gathered(Log(poll.streams, key), decode, from, values, cursor)
    ensures ReaderOk([poll], 1, key, decode, from, values', cursor', ending) && values <= values'
    ensures ending.Snapshot? ==> snapshot
    ensures ending.Waiting? ==> !snapshot
  {
    ghost var log := Log(poll.streams, key);
    var entries, closed := ReadStreamEntries(poll.streams, key, cursor);
    EntriesContinue(poll.streams, key, cursor, entries);
    var error;
    values', cursor', error := Gather(entries, decode, log, from, values, cursor);
    if error.Some? {
      ending := Undecodable(error.value);
      var k :| 0 <= k < |entries| && decode(entries[k]) == Err(error.value);
      assert decode(log[Start(cursor) + k]) == Err(error.value);
    } else if closed {
      SentinelEnds(poll.streams, key, cursor, |entries|);
      ending := Closed;
    } else {
      TurnCatchesUp(poll.streams, key, cursor, entries);
      if snapshot {
        ending := Snapshot;
      } else if poll.status.None? {
        ending := NoProducer;
      } else if !IsActive(poll.status.value) {
        ending := Inactive;
      } else {
        ending := Waiting;
      }
    }
  }

  /** What the caller of `read_stream_blocking` gets, once the reader ends: the values and a flag that says closed for
      an inactive producer too, or an error in place of the values. */
  function Answer<T>(values: seq<T>, ending: Ending): Option<Result<(seq<T>, bool), string>> {
    match ending
    case Waiting => None
    case Closed => Some(Ok((values, true)))
    case Inactive => Some(Ok((values, true)))
    case Snapshot => Some(Ok((values, false)))
    case NoProducer => Some(Err("non-existent workflow"))
    case Undecodable(error) => Some(Err(error))
  }

  /** `read_stream_blocking`: the values gathered after every turn are exactly the log up to the cursor, and
      all of it when the reader stops at the sentinel. A PENDING or ENQUEUED producer keeps a reader waiting, unless
      it wants a snapshot, meets the sentinel or cannot decode an entry. */
  method ReadStreamBlocking<T>(
    polls: seq<Poll>, key: Key, decode: StreamEntry -> Result<T, string>, from: int, snapshot: bool)
    returns (
      r: Option<Result<(seq<T>, bool), string>>, values: seq<T>, ending: Ending, ghost turns: nat, ghost cursor: int)
    requires Growing(polls, key)
    ensures r == Answer(values, ending) && (r == None <==> ending == Waiting)
    ensures forall got, closed :: r == Some(Ok((got, closed))) ==>
      got == values && (closed <==> ending in {Closed, Inactive}) && (!closed ==> ending == Snapshot)
    ensures turns <= |polls| && (turns == 0 ==> values == [])
    ensures turns > 0 ==> ReaderOk(polls, turns, key, decode, from, values, cursor, ending)
    ensures ending.Waiting? ==> turns == |polls|
    ensures ending.Snapshot? ==> snapshot
  {
    var current := from;
    values, ending, turns := [], Waiting, 0;
    var i := 0;
    while i < |polls| && ending.Waiting?
      invariant 0 <= i <= |polls| && turns == i
      invariant i == 0 ==> values == [] && current == from
      invariant i > 0 ==> ReaderOk(polls, i, key, decode, from, values, current, ending)
      invariant ending.Snapshot? ==> snapshot
    {
      if i > 0 {
        GatheredGrows(Log(polls[i - 1].streams, key), Log(polls[i].streams, key), decode, from, values, current);
      }
      values, current, ending := Turn(polls[i], key, decode, from, snapshot, values, current);
      i := i + 1;
      turns := i;
    }
    cursor := current;
    match ending
    case Waiting => r := None;
    case Closed => r := Some(Ok((values, true)));
    case Inactive => r := Some(Ok((values, true)));
    case Snapshot => r := Some(Ok((values, false)));
    case NoProducer => r := Some(Err("non-existent workflow"));
    case Undecodable(error) => r := Some(Err(error));
  }

  /** What the channel of `read_stream_async` delivers: the values in order, then at most one error. */
  ghost predicate Delivered<T>(sent: seq<Result<T, string>>, values: seq<T>, error: Option<string>) {
    && |sent| == |values| + (if error.Some? then 1 else 0)
    && (forall k :: 0 <= k < |values| ==> sent[k] == Ok(values[k]))
    && (error.Some? ==> sent[|values|] == Err(error.value))
  }

  /** Send the values of one turn, then its error if it ended with one. */
  method Deliver<T>(sent: seq<Result<T, string>>, ghost values: seq<T>, read: seq<T>, error: Option<string>)
    returns (sent': seq<Result<T, string>>)
    requires Delivered(sent, values, None)
    ensures Delivered(sent', values + read, error)
  {
    sent' := sent + seq(|read|, k requires 0 <= k < |read| => Ok(read[k]));
    if error.Some? {
      sent' := sent' + [Err(error.value)];
    }
  }

  function EndingError(ending: Ending): Option<string> {
    match ending
    case Undecodable(error) => Some(error)
    case NoProducer => Some("non-existent workflow")
    case _ => None
  }

  /** `read_stream_async`, the second copy of the loop: from offset 0, never a snapshot, each value sent as it
      is read; errors are sent too. */
  method ReadStreamAsync<T>(polls: seq<Poll>, key: Key, decode: StreamEntry -> Result<T, string>)
    returns (sent: seq<Result<T, string>>, ending: Ending, ghost values: seq<T>, ghost turns: nat, ghost cursor: int)
    requires Growing(polls, key)
    ensures turns <= |polls| && (turns == 0 ==> values == [])
    ensures turns > 0 ==> ReaderOk(polls, turns, key, decode, 0, values, cursor, ending)
    ensures ending.Waiting? ==> turns == |polls|
    ensures !ending.Snapshot? && Delivered(sent, values, EndingError(ending))
    ensures ending == NoProducer || ending.Undecodable? <==> |sent| > |values|
  {
    var current := 0;
    sent, ending, values, turns := [], Waiting, [], 0;
    var i := 0;
    while i < |polls| && ending.Waiting?
      invariant 0 <= i <= |polls| && turns == i && current == |values|
      invariant i == 0 ==> values == []
      invariant i > 0 ==> ReaderOk(polls, i, key, decode, 0, values, current, ending)
      invariant !ending.Snapshot? && Delivered(sent, values, EndingError(ending))
    {
      ghost var gathered, from, log := values, current, Log(polls[i].streams, key);
      if i > 0 {
        GatheredGrows(Log(polls[i - 1].streams, key), log, decode, 0, values, current);
      }
      var read;
      read, current, ending := Turn(polls[i], key, decode, current, false, [], current);
      values := values + read;
      TurnsJoin(log, decode, gathered, from, read, current);
      sent := Deliver(sent, gathered, read, EndingError(ending));
      i := i + 1;
      turns := i;
    }
    cursor := current;
  }

  /** A reader from offset 0 whose next turn starts at its cursor. */
  lemma TurnsJoin<T>(
    log: seq<StreamEntry>, decode: StreamEntry -> Result<T, string>, values: seq<T>, cursor: int,
    read: seq<T>, cursor': int)
    requires Gathered(log, decode, 0, values, cursor) && Gathered(log, decode, cursor, read, cursor')
    requires cursor == |values|
    ensures Gathered(log, decode, 0, values + read, cursor') && cursor' == |values + read|
    ensures CaughtUp(log, cursor, read) ==> CaughtUp(log, 0, values + read)
    ensures IsWhole(log, decode, cursor, read) ==> IsWhole(log, decode, 0, values + read)
  {
    var joined := values + read;
    forall k | 0 <= k < |joined| ensures IsValueOf(log[k], decode, joined[k]) {
      if k >= |values| {
        assert joined[k] == read[k - |values|];
        assert IsValueOf(log[Start(cursor) + (k - |values|)], decode, read[k - |values|]);
      }
    }
  }

  // ---- the logs a reader sees ---------------------------------------------------------------------------

  /** A further operation of a crash-free execution only appends to a log. */
  lemma EffectAppends(t: Outputs, a: Action, i: nat, key: Key)
    requires WellShaped(t.streams) && WellShaped(Effect(t, a, i).streams)
    ensures Log(t.streams, key) <= Log(Effect(t, a, i).streams, key)
  {
    if WritesStream(a) {
      NextOffsetFresh(t.streams, a.key);
    }
    LogsCompare(t.streams, Effect(t, a, i).streams, key);
  }

  lemma LogsCompare(streams: Streams, streams': Streams, key: Key)
    requires Contiguous(streams) && Contiguous(streams')
    requires forall ko :: ko in streams ==> ko in streams' && streams'[ko] == streams[ko]
    ensures Log(streams, key) <= Log(streams', key)
  {
    RowsAreTail(streams, key, 0);
    RowsAreTail(streams', key, 0);
    var n, n' := NextOffset(streams, key), NextOffset(streams', key);
    if n' < n {
      NextIsLength(streams, key, n');
      NextIsLength(streams', key, n');
    }
  }

  lemma OrderlyPrefix(b: Body, h: seq<Outcome>, n: nat)
    requires Orderly(b, h) && n <= |h|
    ensures Orderly(b, h[..n])
  {
    forall k | 0 <= k < n ensures WritesWhenOpen(b, h[..n], k) {
      assert WritesWhenOpen(b, h, k);
      assert h[..n][..k] == h[..k];
    }
  }

  lemma {:induction false} ReplayedGrows(b: Body, g: seq<Outcome>, h: seq<Outcome>, key: Key)
    requires Orderly(b, h) && g <= h
    ensures Log(Replayed(b, g).streams, key) <= Log(Replayed(b, h).streams, key)
    decreases |h|
  {
    if |g| < |h| {
      var p := h[..|h| - 1];
      OrderlyPrefix(b, h, |p|);
      ReplayedGrows(b, g, p, key);
      ReplayedShape(b, p);
      ReplayedShape(b, h);
      EffectAppends(Replayed(b, p), b(p), Pos(b, p), key);
    } else {
      assert g == h;
    }
  }

  /** In a run of the replay engine, whatever crashes and however executions overlap, the log of a stream
      only grows at its end while its workflow exists: readers may rely on `Growing`. */
  lemma LogsGrow(reg: Registry, ss: seq<Sys>, ls: seq<Label>, w: Id, i: nat, j: nat, key: Key)
    requires Run(reg, ss, ls) && Lives(ss, w, i, j)
    ensures WellShaped(ss[i].db[w].streams) && WellShaped(ss[j].db[w].streams)
    ensures Log(ss[i].db[w].streams, key) <= Log(ss[j].db[w].streams, key)
  {
    RunKeeps(reg, ss, ls, i);
    RunKeeps(reg, ss, ls, j);
    var x, y := ss[i].db[w], ss[j].db[w];
    assert WorkflowOk(reg, x) && WorkflowOk(reg, y);
    var b := BodyOf(reg, x);
    var g :| Frontier(b, x, g);
    RowsNeverChange(reg, ss, ls, w, i, j, g);
    var h :| Frontier(b, y, h);
    TraceIsPrefix(b, y.ops, h, g);
    ReplayedGrows(b, g, h, key);
    StreamsAreWellShaped(reg, ss, ls, i, w);
    StreamsAreWellShaped(reg, ss, ls, j, w);
  }

  /** Polls taken at states `at[0] <= at[1] <= ...` of a run. */
  lemma PollsGrow(reg: Registry, ss: seq<Sys>, ls: seq<Label>, w: Id, at: seq<nat>, polls: seq<Poll>, key: Key)
    requires Run(reg, ss, ls) && |at| == |polls|
    requires forall i, j :: 0 <= i <= j < |at| ==> at[i] <= at[j] && Lives(ss, w, at[i], at[j])
    requires forall i :: 0 <= i < |polls| ==>
      at[i] < |ss| && w in ss[at[i]].db && polls[i].streams == ss[at[i]].db[w].streams
    ensures Growing(polls, key)
  {
    forall i, j | 0 <= i <= j < |polls|
      ensures WellShaped(polls[i].streams) && Log(polls[i].streams, key) <= Log(polls[j].streams, key)
    {
      LogsGrow(reg, ss, ls, w, at[i], at[j], key);
    }
  }
}
