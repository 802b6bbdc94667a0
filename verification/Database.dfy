/**
 The system database as the object its callers see: one method per SQL statement, changing the tables in
 place. A transaction is a sequence of statements; a failed one restores the tables it began with.
 */
module Database {
  import opened Wrappers
  import opened Tables
  import opened StatusTable
  import opened Operations
  import opened Fork
  import opened Counting
  import opened Queue
  import opened RowMachine

  /** `newest` are rows created at `cutoff` or later, and the others are no newer. */
  ghost predicate AreNewest(db: Db, newest: set<Id>, cutoff: int) {
    && newest <= db.Keys && (forall id :: id in newest ==> db[id].row.createdAt >= cutoff)
    && (exists id :: id in newest && db[id].row.createdAt == cutoff)
    && forall id :: id in db && id !in newest ==> db[id].row.createdAt <= cutoff
  }

  lemma NewestGrows(db: Db, newest: set<Id>, x: Id, cutoff: int)
    requires x in db && x !in newest && (newest == {} || AreNewest(db, newest, cutoff))
    requires forall id :: id in db && id !in newest ==> db[id].row.createdAt <= db[x].row.createdAt
    ensures AreNewest(db, newest + {x}, db[x].row.createdAt)
  {
  }

  lemma MoveOne<T>(all: set<T>, a: set<T>, b: set<T>, x: T)
    requires a <= all && b == all - a && x in b
    ensures a + {x} <= all && b - {x} == all - (a + {x}) && |a + {x}| == |a| + 1 && |b - {x}| == |b| - 1
  {
  }

  lemma NewestMoves(db: Db, newest: set<Id>, todo: set<Id>, x: Id, cutoff: int)
    requires newest <= db.Keys && todo == db.Keys - newest && x in todo
    requires newest == {} || AreNewest(db, newest, cutoff)
    requires forall id :: id in todo ==> db[id].row.createdAt <= db[x].row.createdAt
    ensures AreNewest(db, newest + {x}, db[x].row.createdAt)
    ensures newest + {x} <= db.Keys && todo - {x} == db.Keys - (newest + {x})
    ensures |newest + {x}| == |newest| + 1 && |todo - {x}| == |todo| - 1
  {
    NewestGrows(db, newest, x, cutoff);
    MoveOne(db.Keys, newest, todo, x);
  }

  /** What recovery passes to `start_workflow` for a row: its own id and name, and one more attempt. */
  predicate IsRecovery(id: Id, row: Row, input: InsertInput) {
    input.id == id && input.row.name == row.name && input.increment == 1 && IsStartRow(input.row)
  }

  /** A recovered row: back in its queue, or one attempt further, perhaps dead-lettered; a workflow that is not
      registered stays. */
  function RecoveredRow(row: Row, limit: Option<int>, input: InsertInput): Row {
    if row.queue.Some? then ClearRow(row)
    else if limit.None? then row
    else if Exhausted(Touch(row, input), limit.value) then DeadLetter(Touch(row, input))
    else Touch(row, input)
  }

  function RecoveredBy(x: Workflow, limit: Option<int>, input: InsertInput): Workflow {
    x.(row := RecoveredRow(x.row, limit, input))
  }

  function Recovered(x: Workflow, registry: string -> Option<int>, input: InsertInput): Workflow {
    RecoveredBy(x, registry(x.row.name), input)
  }

  /** The rows of `done` recovered, each on its own, every other row as it was. */
  ghost function RecoveredIn(db: Db, done: set<Id>, registry: string -> Option<int>, inputs: Id -> InsertInput): Db {
    map id | id in db :: if id in done then Recovered(db[id], registry, inputs(id)) else db[id]
  }

  ghost function RunsIn(db: Db, done: set<Id>, registry: string -> Option<int>, inputs: Id -> InsertInput): set<Id> {
    set id | id in done && id in db && Reruns(db[id], registry, inputs(id))
  }

  ghost function RecoveredIdsIn(
    db: Db, done: set<Id>, registry: string -> Option<int>, inputs: Id -> InsertInput): set<Id> {
    set id | id in done && id in db && (Reruns(db[id], registry, inputs(id)) || db[id].row.queue.Some?)
  }

  lemma RecoverStep(db: Db, done: set<Id>, id: Id, registry: string -> Option<int>, inputs: Id -> InsertInput)
    requires id in db && id !in done
    ensures RecoveredIn(db, done, registry, inputs)[id] == db[id]
    ensures RecoveredIn(db, done + {id}, registry, inputs)
         == RecoveredIn(db, done, registry, inputs)[id := Recovered(db[id], registry, inputs(id))]
    ensures RunsIn(db, done + {id}, registry, inputs)
         == RunsIn(db, done, registry, inputs) + (if Reruns(db[id], registry, inputs(id)) then {id} else {})
    ensures RecoveredIdsIn(db, done + {id}, registry, inputs) == RecoveredIdsIn(db, done, registry, inputs)
         + (if Reruns(db[id], registry, inputs(id)) || db[id].row.queue.Some? then {id} else {})
  {
  }

  predicate Reruns(x: Workflow, registry: string -> Option<int>, input: InsertInput) {
    RecoveryRuns(x.row, registry(x.row.name), input)
  }

  predicate RecoveryRuns(row: Row, limit: Option<int>, input: InsertInput) {
    row.queue.None? && limit.Some? && !Exhausted(Touch(row, input), limit.value)
  }

  class SystemDatabase {
    var wfs: Db

    constructor ()
      ensures wfs == map[]
    {
      wfs := map[];
    }

    method Rollback(saved: Db)
      modifies this
      ensures wfs == saved
    {
      wfs := saved;
    }

    // ---- operation_outputs ------------------------------------------------------------------------------

    /** The status guard, then the row, then the name of the step it was recorded for. */
    method CheckOperationExecution(w: Id, i: nat, name: string) returns (r: Result<Option<Op>, DbError>)
      ensures r == CheckOperation(wfs, w, i, name)
    {
      if w !in wfs {
        return Err(NonExistentWorkflow);
      }
      if wfs[w].row.status.Cancelled? {
        return Err(WorkflowCancelled);
      }
      if i !in wfs[w].ops {
        return Ok(None);
      }
      var op := wfs[w].ops[i];
      if op.name != name {
        return Err(UnexpectedStep);
      }
      r := Ok(Some(op));
    }

    /** Insert a checkpoint; the primary key lets only the first one in. */
    method RecordOperationResult(w: Id, i: nat, op: Op) returns (r: Result<Outcome, DbError>)
      modifies this
      ensures Tx(wfs, r) == RecordOp(old(wfs), old(wfs), w, i, op, Unit)
    {
      if w !in wfs {
        return Err(ForeignKey);
      }
      if i in wfs[w].ops {
        return Err(ConflictingId);
      }
      wfs := wfs[w := wfs[w].(ops := wfs[w].ops[i := op])];
      r := Ok(Unit);
    }

    method CheckChildWorkflow(w: Id, i: nat) returns (child: Option<Id>)
      ensures child == if w in wfs && i in wfs[w].ops then wfs[w].ops[i].child else None
    {
      child := None;
      if w in wfs && i in wfs[w].ops {
        child := wfs[w].ops[i].child;
      }
    }

    // ---- notifications and events -----------------------------------------------------------------------

    method InsertNotification(dest: Id, uuid: string, note: Note) returns (r: Result<Outcome, DbError>)
      modifies this
      ensures r == if dest in old(wfs) then Ok(Unit) else Err(NonExistentWorkflow)
      ensures wfs == if dest in old(wfs) then Deliver(old(wfs), dest, uuid, note) else old(wfs)
    {
      if dest !in wfs {
        return Err(NonExistentWorkflow);
      }
      wfs := wfs[dest := wfs[dest].(inbox := wfs[dest].inbox[uuid := note])];
      r := Ok(Unit);
    }

    method NotificationExistsUnconsumed(w: Id, topic: string) returns (found: bool)
      ensures w !in wfs ==> !found
      ensures w in wfs ==> forall pick :: IsPick(wfs[w].inbox, topic, pick) ==> (found <==> pick.Some?)
    {
      found := false;
      if w in wfs {
        var todo := wfs[w].inbox.Keys;
        while todo != {} && !found
          invariant todo <= wfs[w].inbox.Keys
          invariant found ==> exists u :: Unread(wfs[w].inbox, topic, u)
          invariant !found ==> forall u :: Unread(wfs[w].inbox, topic, u) ==> u in todo
          decreases |todo|, !found
        {
          var u :| u in todo;
          todo := todo - {u};
          found := wfs[w].inbox[u].topic == topic && !wfs[w].inbox[u].consumed;
          assert found <==> Unread(wfs[w].inbox, topic, u);
        }
      }
    }

    /** ORDER BY created_at ASC LIMIT 1 over the unread messages of a topic. */
    method OldestUnread(w: Id, topic: string) returns (pick: Option<string>)
      requires w in wfs
      ensures IsPick(wfs[w].inbox, topic, pick)
    {
      var inbox := wfs[w].inbox;
      var todo := inbox.Keys;
      pick := None;
      while todo != {}
        invariant todo <= inbox.Keys
        invariant pick.None? ==> forall v :: v in inbox && v !in todo ==> !Unread(inbox, topic, v)
        invariant pick.Some? ==> Unread(inbox, topic, pick.value)
        invariant pick.Some? ==> forall v :: v in inbox && v !in todo && Unread(inbox, topic, v) ==>
          inbox[pick.value].createdAt <= inbox[v].createdAt
        decreases |todo|
      {
        var u :| u in todo;
        todo := todo - {u};
        if inbox[u].topic == topic && !inbox[u].consumed
          && (pick.None? || inbox[u].createdAt < inbox[pick.value].createdAt) {
          pick := Some(u);
        }
      }
    }

    /** UPDATE ... SET consumed = true on exactly that message, returning it. */
    method ConsumeOldestNotification(w: Id, topic: string) returns (pick: Option<string>, note: Option<Note>)
      requires w in wfs
      modifies this
      ensures IsPick(old(wfs)[w].inbox, topic, pick)
      ensures wfs == old(wfs)[w := old(wfs)[w].(inbox := Consume(old(wfs)[w].inbox, pick))]
      ensures note.Some? <==> pick.Some?
      ensures pick.Some? ==> note == Some(old(wfs)[w].inbox[pick.value])
    {
      pick := OldestUnread(w, topic);
      note := None;
      if pick.Some? {
        var u := pick.value;
        note := Some(wfs[w].inbox[u]);
        wfs := wfs[w := wfs[w].(inbox := wfs[w].inbox[u := wfs[w].inbox[u].(consumed := true)])];
      }
    }

    method UpsertWorkflowEvent(w: Id, key: Key, stored: Stored)
      requires w in wfs
      modifies this
      ensures wfs == old(wfs)[w := old(wfs)[w].(events := old(wfs)[w].events[key := stored])]
    {
      wfs := wfs[w := wfs[w].(events := wfs[w].events[key := stored])];
    }

    method InsertWorkflowEventHistory(w: Id, i: nat, key: Key, stored: Stored)
      requires w in wfs
      modifies this
      ensures wfs == old(wfs)[w := old(wfs)[w].(history := old(wfs)[w].history[(i, key) := stored])]
    {
      wfs := wfs[w := wfs[w].(history := wfs[w].history[(i, key) := stored])];
    }

    // ---- streams ------------------------------------------------------------------------------------------

    /** Refuse a closed stream, else append at the next offset. */
    method WriteStreamEntry(w: Id, i: nat, key: Key, value: string, format: Option<string>)
      returns (r: Result<Outcome, DbError>)
      requires w in wfs
      modifies this
      ensures r == if StreamClosed(old(wfs)[w].streams, key) then Err(ClosedStream) else Ok(Unit)
      ensures r.Err? ==> wfs == old(wfs)
      ensures r.Ok? ==>
        var x := old(wfs)[w];
        wfs == old(wfs)[w := x.(streams := x.streams[(key, NextOffset(x.streams, key)) := Entry(value, i, format)])]
    {
      var streams := wfs[w].streams;
      if exists ko :: ko in streams && ko.0 == key && streams[ko].value == SENTINEL {
        return Err(ClosedStream);
      }
      var offset := NextOffset(streams, key);
      wfs := wfs[w := wfs[w].(streams := streams[(key, offset) := Entry(value, i, format)])];
      r := Ok(Unit);
    }

    // ---- workflow_status ----------------------------------------------------------------------------------

    /** Insert or touch, check for conflicts, dead-letter; a conflict rolls back. */
    method InsertWorkflowStatus(input: InsertInput, maxRetries: int) returns (out: InsertOutcome)
      modifies this
      ensures (wfs, out) == InsertStatus(old(wfs), input, maxRetries)
      ensures !out.Touched? ==> wfs == old(wfs)
      ensures forall id :: id != input.id && id in old(wfs) ==> id in wfs && wfs[id] == old(wfs)[id]
      ensures input.id !in old(wfs) ==>
        (out == Deduplicated <==>
           input.row.dedup.Some? && input.row.queue.Some? && exists v ::
             v in old(wfs) && old(wfs)[v].row.queue == input.row.queue && old(wfs)[v].row.dedup == input.row.dedup)
      ensures input.id !in old(wfs) && out != Deduplicated && input.row.attempts <= 1 ==>
        && out == Touched(input.row.attempts, input.row.status, input.row.owner, false)
        && wfs == old(wfs)[input.id := Unstarted(input.row)]
      ensures input.id in old(wfs) ==>
        var row := old(wfs)[input.id].row;
        && (out == NameConflict <==> input.row.name !in {"", row.name})
        && (out == QueueConflict <==>
              input.row.name in {"", row.name} && row.queue.Some? && input.row.queue !in {None, row.queue})
        && (out.Touched? <==> out != NameConflict && out != QueueConflict)
      ensures input.id in old(wfs) && out.Touched? ==>
        var row, row' := old(wfs)[input.id].row, wfs[input.id].row;
        && row'.updatedAt == input.row.updatedAt && SameTables(old(wfs)[input.id], wfs[input.id])
        && (if input.row.status in {Enqueued, Delayed}
            then row'.attempts == row.attempts && row'.executor == row.executor
            else row'.attempts == row.attempts + input.increment && row'.executor == input.row.executor)
        && out.attempts == row'.attempts && out.status == row.status && out.owner == row.owner == row'.owner
        && (out.deadLettered <==>
              row.status !in {Success, Error} && maxRetries > 0 && row'.attempts > maxRetries + 1)
        && (if out.deadLettered && row.status == Pending
            then row'.status == DeadLettered && row'.queue == row'.dedup == None && row'.startedAt == None
            else row'.status == row.status && row'.queue == row.queue && row'.dedup == row.dedup
                 && row'.startedAt == row.startedAt)
    {
      var saved := wfs;
      var id := input.id;
      if id in wfs {
        wfs := wfs[id := wfs[id].(row := Touch(wfs[id].row, input))];
      } else if DedupTaken(wfs, input.row) {
        return Deduplicated;
      } else {
        wfs := wfs[id := Unstarted(input.row)];
      }
      var row := wfs[id].row;
      if input.row.name != "" && row.name != input.row.name {
        Rollback(saved);
        return NameConflict;
      }
      if input.row.queue.Some? && row.queue.Some? && row.queue != input.row.queue {
        Rollback(saved);
        return QueueConflict;
      }
      var deadLettered := false;
      if Exhausted(row, maxRetries) {
        if row.status.Pending? {
          var dead := row.(status := DeadLettered, dedup := None, startedAt := None, queue := None);
          wfs := wfs[id := wfs[id].(row := dead)];
        }
        deadLettered := true;
      }
      assert wfs == saved[id := wfs[id]];
      out := Touched(row.attempts, row.status, row.owner, deadLettered);
    }

    /** `start_workflow`'s transaction: does this call run the body? */
    method StartWorkflow(input: InsertInput, maxRetries: int, recovery: bool) returns (out: InsertOutcome, runs: bool)
      requires IsStartRow(input.row) && input.increment == if recovery then 1 else 0
      modifies this
      ensures Changes(Start(input, maxRetries, recovery), old(wfs), wfs)
      ensures out == InsertStatus(old(wfs), input, maxRetries).1 && (runs <==> RunsBody(out, input.row.owner, recovery))
      ensures input.id !in old(wfs) ==> runs && wfs == old(wfs)[input.id := Unstarted(input.row)]
      ensures input.id in old(wfs) && runs ==>
        && old(wfs)[input.id].row.status !in {Success, Error}
        && (recovery || old(wfs)[input.id].row.owner == input.row.owner)
      ensures input.id in old(wfs) && recovery ==>
        var row, row' := old(wfs)[input.id].row, wfs[input.id].row;
        (row.status == Pending && row.queue == None && row.name == input.row.name) ==>
          && (runs <==> maxRetries <= 0 || row.attempts <= maxRetries)
          && row'.attempts == row.attempts + 1 && row'.queue == None
          && row'.status == if runs then Pending else DeadLettered
    {
      out := InsertWorkflowStatus(input, maxRetries);
      var skip := !out.Touched? || out.deadLettered || out.status.Success? || out.status.Error?
        || (!recovery && out.owner != input.row.owner);
      runs := !skip;
    }

    method UpdateWorkflowOutcome(id: Id, result: Result<string, string>, now: int)
      modifies this
      ensures Changes(Finish(id, result, now), old(wfs), wfs)
      ensures wfs.Keys == old(wfs).Keys && forall v :: v in wfs && v != id ==> wfs[v] == old(wfs)[v]
      ensures id in wfs && old(wfs)[id].row.status == Cancelled ==> wfs[id] == old(wfs)[id]
      ensures id in wfs && old(wfs)[id].row.status != Cancelled ==>
        && wfs[id].row.status == (if result.Ok? then Success else Error)
        && wfs[id].row.output == (if result.Ok? then Some(result.value) else None)
        && wfs[id].row.error == (if result.Err? then Some(result.error) else None)
        && wfs[id].row.completedAt == Some(now) && wfs[id].row.dedup == None
        && SameTables(old(wfs)[id], wfs[id]) && wfs[id].inbox == old(wfs)[id].inbox
    {
      if id in wfs && !wfs[id].row.status.Cancelled? {
        var row := wfs[id].row.(updatedAt := now, completedAt := Some(now), dedup := None);
        match result {
          case Ok(output) => row := row.(status := Success, output := Some(output), error := None);
          case Err(error) => row := row.(status := Error, output := None, error := Some(error));
        }
        wfs := wfs[id := wfs[id].(row := row)];
      }
      assert wfs == UpdateRows(old(wfs), {id}, row => FinishRow(row, result, now));
    }

    /** Every given workflow that exists is finished afterwards. One that was not is CANCELLED: its body is stopped at
        its next look-up, and it holds no slot, no place and no deduplication id in any queue. Nothing else changes. */
    method CancelWorkflows(ids: set<Id>, now: int) returns (found: set<Id>)
      modifies this
      ensures Changes(Cancel(ids, now), old(wfs), wfs)
      ensures wfs.Keys == old(wfs).Keys && forall id :: id in found <==> id in ids && id in wfs
      ensures forall id :: id in found ==> Finished(wfs[id].row.status)
      ensures forall id :: id in found && !Finished(old(wfs)[id].row.status) ==>
        && wfs[id].row.status.Cancelled? && wfs[id].row.completedAt == Some(now) && wfs[id].row.dedup.None?
        && wfs[id].row.updatedAt == now
        && SameTables(old(wfs)[id], wfs[id]) && wfs[id].inbox == old(wfs)[id].inbox
        && (forall i, name :: CheckOperation(wfs, id, i, name) == Err(WorkflowCancelled))
        && (forall queue, partition :: !InQueue(wfs[id].row, queue, partition))
      ensures forall id :: id in wfs && (id !in ids || Finished(old(wfs)[id].row.status)) ==> wfs[id] == old(wfs)[id]
    {
      found := ids * wfs.Keys;
      wfs := UpdateRows(wfs, ids, row => CancelRow(row, now));
    }

    /** Every given workflow that has no outcome waits in the queue again, with all its attempts, no deadline and its
        checkpoints; an executor of its version may claim it, and look-ups pass. Nothing else changes. */
    method ResumeWorkflows(ids: set<Id>, queue: string, now: int) returns (found: set<Id>)
      modifies this
      ensures Changes(Resume(ids, queue, now), old(wfs), wfs)
      ensures wfs.Keys == old(wfs).Keys && forall id :: id in found <==> id in ids && id in wfs
      ensures forall id :: id in found && !Settled(old(wfs)[id].row.status) ==>
        && wfs[id].row.attempts == 0 && wfs[id].row.deadline.None?
        && wfs[id].row.completedAt.None? && wfs[id].row.startedAt.None? && wfs[id].row.dedup.None?
        && wfs[id].row.updatedAt == now
        && SameTables(old(wfs)[id], wfs[id]) && wfs[id].inbox == old(wfs)[id].inbox
        && (forall i, name :: CheckOperation(wfs, id, i, name) != Err(WorkflowCancelled))
        && forall d: DequeueInput ::
             IsEligible(wfs[id].row, d) <==>
             && d.queue == queue && (d.partition.Some? ==> wfs[id].row.partition == d.partition)
             && (wfs[id].row.version.None? || wfs[id].row.version == Some(d.version))
      ensures forall id :: id in wfs && (id !in ids || Settled(old(wfs)[id].row.status)) ==> wfs[id] == old(wfs)[id]
    {
      found := ids * wfs.Keys;
      wfs := UpdateRows(wfs, ids, row => ResumeRow(row, queue, now));
    }

    /** None of the given workflows is left: no look-up or message finds it. The others stay as they were. */
    method DeleteWorkflows(ids: set<Id>)
      modifies this
      ensures Changes(Delete(ids), old(wfs), wfs)
      ensures forall id :: id in wfs <==> id in old(wfs) && id !in ids
      ensures forall id :: id in wfs ==> wfs[id] == old(wfs)[id]
      ensures forall id, i, name :: id in ids ==> CheckOperation(wfs, id, i, name) == Err(NonExistentWorkflow)
    {
      wfs := wfs - ids;
    }

    /** Push a claimed row back to its queue; false when there is nothing to reset. */
    method ClearQueueAssignment(id: Id) returns (reset: bool)
      modifies this
      ensures Changes(Clear(id), old(wfs), wfs)
      ensures reset <==> id in old(wfs) && old(wfs)[id].row.queue.Some? && old(wfs)[id].row.status.Pending?
      ensures !reset ==> wfs == old(wfs)
      ensures reset ==>
        wfs == old(wfs)[id := old(wfs)[id].(row := old(wfs)[id].row.(status := Enqueued, startedAt := None))]
    {
      reset := id in wfs && wfs[id].row.queue.Some? && wfs[id].row.status.Pending?;
      if reset {
        wfs := wfs[id := wfs[id].(row := wfs[id].row.(status := Enqueued, startedAt := None))];
      }
      assert wfs == UpdateRows(old(wfs), {id}, ClearRow);
    }

    /** Exactly the delayed rows whose time has come wait for a claim; a row whose delay has not passed stays. */
    method TransitionDelayedWorkflows(now: int)
      modifies this
      ensures Changes(Promote(now), old(wfs), wfs) && wfs.Keys == old(wfs).Keys
      ensures forall id :: id in wfs ==>
        var row := old(wfs)[id].row;
        wfs[id] == if row.status == Delayed && row.delayUntil.Some? && row.delayUntil.value <= now
                   then old(wfs)[id].(row := row.(status := Enqueued)) else old(wfs)[id]
    {
      wfs := UpdateRows(wfs, wfs.Keys, row => PromoteRow(row, now));
    }

    method GetQueuePartitions(queue: string) returns (keys: set<string>)
      ensures forall p :: p in keys <==>
        exists id ::
          && id in wfs && wfs[id].row.queue == Some(queue) && wfs[id].row.status.Enqueued?
          && wfs[id].row.partition == Some(p)
    {
      keys := set id | id in wfs && wfs[id].row.queue == Some(queue) && wfs[id].row.status.Enqueued?
                       && wfs[id].row.partition.Some? :: wfs[id].row.partition.value;
    }

    /** The new row, then the four copies of what lies below the start step. */
    method CopyBelow(x: Workflow, input: ForkInput) returns (y: Workflow)
      ensures y == ForkWorkflow(x, input)
    {
      y := Unstarted(ForkRow(x.row, input));
      if input.start > 0 {
        y := y.(ops := OpsBelow(x.ops, input.start));
        y := y.(history := HistoryBelow(x.history, input.start));
        y := y.(events := CurrentEvents(HistoryBelow(x.history, input.start)));
        y := y.(streams := StreamsBelow(x.streams, input.start));
      }
    }

    method ForkWorkflowAt(input: ForkInput) returns (r: Result<Id, DbError>)
      modifies this
      ensures input.original !in old(wfs) ==> r == Err(NonExistentWorkflow) && wfs == old(wfs)
      ensures input.original in old(wfs) && input.forked in old(wfs) ==> r == Err(ConflictingId) && wfs == old(wfs)
      ensures input.original in old(wfs) && input.forked !in old(wfs) ==>
        r == Ok(input.forked) && wfs == ForkTx(old(wfs), input)
    {
      if input.original !in wfs {
        return Err(NonExistentWorkflow);
      }
      if input.forked in wfs {
        return Err(ConflictingId);
      }
      var x := wfs[input.original];
      var y := CopyBelow(x, input);
      wfs := wfs[input.original := x.(row := x.row.(wasForkedFrom := true))];
      wfs := wfs[input.forked := y];
      r := Ok(input.forked);
    }

    // ---- the scheduler --------------------------------------------------------------------------------------

    /** A row of `todo` that ORDER BY puts first. */
    method FirstOf(todo: set<Id>) returns (x: Id)
      requires todo != {} && todo <= wfs.Keys
      ensures x in todo && forall y :: y in todo ==> Before(wfs[x].row, wfs[y].row)
    {
      x :| x in todo;
      var rest := todo - {x};
      while rest != {}
        invariant x in todo && rest <= todo
        invariant forall y :: y in todo && y !in rest ==> Before(wfs[x].row, wfs[y].row)
        decreases |rest|
      {
        var y :| y in rest;
        rest := rest - {y};
        if !Before(wfs[x].row, wfs[y].row) {
          x := y;
        }
      }
    }

    /** SELECT ... ORDER BY priority, created_at LIMIT n over the eligible rows. */
    method SelectCandidates(input: DequeueInput, n: nat) returns (ids: seq<Id>)
      ensures IsSelection(wfs, Eligible(wfs, input), ids, n)
    {
      var todo := Eligible(wfs, input);
      ids := [];
      while |ids| < n && todo != {}
        invariant |ids| <= n && |ids| + |todo| == |Eligible(wfs, input)| && todo <= Eligible(wfs, input)
        invariant forall id :: id in ids <==> id in Eligible(wfs, input) && id !in todo
        invariant Distinct(ids) && Sorted(wfs, ids)
        invariant forall x, y :: x in ids && y in todo ==> Before(wfs[x].row, wfs[y].row)
        decreases |todo|
      {
        var x := FirstOf(todo);
        ids := ids + [x];
        todo := todo - {x};
      }
    }

    /** How many starts the rate limit leaves, or None without one. */
    method RateLeft(input: DequeueInput, gate: int) returns (left: Option<nat>)
      ensures left == if input.rate.None? then None else Some(RateAllowance(wfs, input, gate))
    {
      left := None;
      if input.rate.Some? {
        var limit := input.rate.value.limit;
        var recent := |Recent(wfs, input.queue, input.partition, gate - input.rate.value.period)|;
        left := Some(if recent >= limit then 0 else limit - recent);
      }
    }

    method MaxTasks(input: DequeueInput) returns (tasks: nat)
      ensures tasks == TaskAllowance(wfs, input)
    {
      tasks := input.maxTasks;
      if input.worker.Some? {
        tasks := if input.worker.value >= input.local then input.worker.value - input.local else 0;
      }
      if input.global.Some? {
        var count := |Running(wfs, input.queue, input.partition)|;
        var available := if input.global.value >= count then input.global.value - count else 0;
        if available < tasks {
          tasks := available;
        }
      }
    }

    /** UPDATE ... WHERE workflow_uuid = id AND status = ENQUEUED RETURNING ... */
    method Claim(id: Id, input: DequeueInput, now: int) returns (claimed: bool)
      modifies this
      ensures claimed <==> id in old(wfs) && old(wfs)[id].row.status.Enqueued?
      ensures wfs == if claimed then ClaimRows(old(wfs), [id], input, now) else old(wfs)
    {
      claimed := id in wfs && wfs[id].row.status.Enqueued?;
      if claimed {
        wfs := wfs[id := wfs[id].(row := ClaimRow(wfs[id].row, input, now))];
      }
    }

    /** The claim loop, which stops early when the rate limit is used up. */
    method ClaimAll(candidates: seq<Id>, input: DequeueInput, left: Option<nat>, now: int) returns (claimed: seq<Id>)
      requires Distinct(candidates) && forall id :: id in candidates ==> id in wfs && wfs[id].row.status.Enqueued?
      modifies this
      ensures claimed == candidates[..if left.Some? then Min(|candidates|, left.value) else |candidates|]
      ensures wfs == ClaimRows(old(wfs), claimed, input, now)
    {
      claimed := [];
      var i := 0;
      while i < |candidates| && (left.None? || |claimed| < left.value)
        invariant 0 <= i <= |candidates| && claimed == candidates[..i] && (left.Some? ==> i <= left.value)
        invariant wfs == ClaimRows(old(wfs), claimed, input, now)
        decreases |candidates| - i
      {
        assert candidates[i] !in claimed;
        var got := Claim(candidates[i], input, now);
        if got {
          claimed := claimed + [candidates[i]];
        }
        i := i + 1;
      }
    }

    /** `dequeue_workflows` as one transaction: gate, allowance, selection, claims. */
    method DequeueWorkflows(input: DequeueInput, gate: int, now: int) returns (claimed: seq<Id>)
      requires gate <= now
      modifies this
      ensures Changes(Dequeue(input, gate, now, claimed), old(wfs), wfs)
      ensures wfs.Keys == old(wfs).Keys && forall id :: id in wfs && id !in claimed ==> wfs[id] == old(wfs)[id]
      ensures forall id :: id in claimed ==>
        && id in wfs && old(wfs)[id].row.status == Enqueued
        && var row, row' := old(wfs)[id].row, wfs[id].row;
           && row'.status == Pending && row'.executor == Some(input.executor) && row'.version == Some(input.version)
           && row'.startedAt == Some(now) && (row'.rateLimited <==> input.rate.Some?)
           && row'.deadline == (if row.deadline == None && row.timeoutMs.Some? then Some(now + row.timeoutMs.value)
                                else row.deadline)
    {
      claimed := [];
      var left := RateLeft(input, gate);
      var tasks := MaxTasks(input);
      if left != Some(0) && tasks > 0 {
        var candidates := SelectCandidates(input, tasks);
        assert forall id :: id in candidates ==> id in Eligible(wfs, input);
        SelectionShortens(wfs, Eligible(wfs, input), candidates, tasks, Allowance(wfs, input, gate));
        claimed := ClaimAll(candidates, input, left, now);
      } else {
        assert wfs == ClaimRows(wfs, [], input, now);
      }
      forall id | id in claimed ensures id in wfs && wfs[id].row == ClaimRow(old(wfs)[id].row, input, now) {
        ClaimedColumns(old(wfs), input, gate, now, claimed, wfs, id);
      }
    }

    // ---- retention ------------------------------------------------------------------------------------------

    method Newest(todo: set<Id>) returns (x: Id)
      requires todo != {} && todo <= wfs.Keys
      ensures x in todo && forall y :: y in todo ==> wfs[y].row.createdAt <= wfs[x].row.createdAt
    {
      x :| x in todo;
      var rest := todo - {x};
      while rest != {}
        invariant x in todo && rest <= todo
        invariant forall y :: y in todo && y !in rest ==> wfs[y].row.createdAt <= wfs[x].row.createdAt
        decreases |rest|
      {
        var y :| y in rest;
        rest := rest - {y};
        if wfs[x].row.createdAt < wfs[y].row.createdAt {
          x := y;
        }
      }
    }

    /** The creation time of the n-th newest row: SELECT created_at ORDER BY created_at DESC OFFSET n - 1. */
    method NthNewest(n: nat) returns (cutoff: Option<int>, ghost newest: set<Id>)
      requires n > 0
      ensures cutoff.None? <==> |wfs| < n
      ensures newest <= wfs.Keys && |newest| == Min(n, |wfs|)
      ensures cutoff.Some? ==> AreNewest(wfs, newest, cutoff.value)
    {
      cutoff, newest := None, {};
      var todo := wfs.Keys;
      var k := 0;
      while k < n && todo != {}
        invariant newest <= wfs.Keys && todo == wfs.Keys - newest && |newest| == k && k + |todo| == |wfs|
        invariant k <= n && (cutoff.None? <==> k == 0) && (k == 0 ==> newest == {})
        invariant k > 0 ==> AreNewest(wfs, newest, cutoff.value)
        decreases |todo|
      {
        var x := Newest(todo);
        NewestMoves(wfs, newest, todo, x, if k > 0 then cutoff.value else 0);
        newest := newest + {x};
        k := k + 1;
        todo := todo - {x};
        cutoff := Some(wfs[x].row.createdAt);
      }
      if k < n {
        cutoff := None;
      }
    }

    /** Exactly the inactive rows older than the effective cutoff go. That is the given cutoff or the creation time of
        the n-th newest row, whichever is later; unless the given one is later, at least n rows stay. */
    method GarbageCollect(cutoff: Option<int>, threshold: Option<int>)
      returns (ghost effective: Option<int>, ghost rows: Option<int>)
      modifies this
      ensures Changes(CollectGarbage(effective), old(wfs), wfs)
      ensures effective in {cutoff, rows} && (effective == None <==> cutoff == None && rows == None)
      ensures cutoff.Some? ==> effective.value >= cutoff.value
      ensures rows.Some? ==> effective.value >= rows.value
      ensures threshold.None? || threshold.value <= 0 ==> rows.None?
      ensures threshold.Some? && threshold.value > 0 ==> (rows.None? <==> |old(wfs)| < threshold.value)
      ensures rows.Some? ==>
        exists newest :: |newest| == threshold.value && AreNewest(old(wfs), newest, rows.value)
      ensures forall id :: id in old(wfs) ==>
        (id !in wfs <==>
           && old(wfs)[id].row.status !in {Pending, Enqueued, Delayed}
           && effective.Some? && old(wfs)[id].row.createdAt < effective.value)
      ensures forall id :: id in wfs ==> id in old(wfs) && wfs[id] == old(wfs)[id]
      ensures threshold.Some? && threshold.value > 0 && (cutoff.None? || (rows.Some? && cutoff.value <= rows.value)) ==>
        |wfs| >= Min(threshold.value, |old(wfs)|)
    {
      var bound := cutoff;
      ghost var newest: set<Id> := {};
      rows := None;
      if threshold.Some? && threshold.value > 0 {
        var nth;
        nth, newest := NthNewest(threshold.value);
        rows := nth;
        bound := EffectiveCutoff(cutoff, nth);
      }
      effective := bound;
      if bound.Some? {
        wfs := Collect(wfs, bound);
        if cutoff.None? || (rows.Some? && cutoff.value <= rows.value) {
          SubsetCount(newest, wfs.Keys);
        }
      }
    }

    // ---- recovery -------------------------------------------------------------------------------------------

    method ListPendingForRecovery(executors: set<string>, version: string) returns (ids: set<Id>)
      ensures ids == set id | id in wfs && Recoverable(wfs[id].row, executors, version)
    {
      ids := set id | id in wfs && Recoverable(wfs[id].row, executors, version);
    }

    /** Re-enqueue one claimed workflow, or start one again outside a queue. */
    method RecoverOne(id: Id, limit: Option<int>, input: InsertInput) returns (recovered: bool, runs: bool)
      requires id in wfs && wfs[id].row.status.Pending? && IsRecovery(id, wfs[id].row, input)
      modifies this
      ensures wfs == old(wfs)[id := RecoveredBy(old(wfs)[id], limit, input)]
      ensures runs <==> RecoveryRuns(old(wfs)[id].row, limit, input)
      ensures recovered <==> runs || old(wfs)[id].row.queue.Some?
      ensures var row, row' := old(wfs)[id].row, wfs[id].row;
        if row.queue.Some? then !runs && row' == row.(status := Enqueued, startedAt := None)
        else if limit.None? then !runs && row' == row
        else
          && (runs <==> limit.value <= 0 || row.attempts <= limit.value)
          && row'.attempts == row.attempts + 1 && row'.executor == input.row.executor && row'.queue == None
          && row'.status == if runs then Pending else DeadLettered
    {
      recovered, runs := false, false;
      if wfs[id].row.queue.Some? {
        recovered := ClearQueueAssignment(id);
        assert wfs == old(wfs)[id := old(wfs)[id].(row := ClearRow(old(wfs)[id].row))];
      } else if limit.Some? {
        var out;
        out, runs := StartWorkflow(input, limit.value, true);
        recovered := out.Touched? && !out.deadLettered;
      }
    }

    /** One turn of the loop: recover `id` and note what became of it. */
    method RecoverNext(
      id: Id, registry: string -> Option<int>, inputs: Id -> InsertInput, recovered: set<Id>, runs: set<Id>,
      ghost was: Db, ghost done: set<Id>)
      returns (recovered': set<Id>, runs': set<Id>)
      requires id in was && id !in done && was[id].row.status.Pending? && IsRecovery(id, was[id].row, inputs(id))
      requires wfs == RecoveredIn(was, done, registry, inputs) && runs == RunsIn(was, done, registry, inputs)
      requires recovered == RecoveredIdsIn(was, done, registry, inputs)
      modifies this
      ensures wfs == RecoveredIn(was, done + {id}, registry, inputs)
      ensures runs' == RunsIn(was, done + {id}, registry, inputs)
      ensures recovered' == RecoveredIdsIn(was, done + {id}, registry, inputs)
    {
      RecoverStep(was, done, id, registry, inputs);
      var ok, started := RecoverOne(id, registry(wfs[id].row.name), inputs(id));
      recovered' := recovered + if ok then {id} else {};
      runs' := runs + if started then {id} else {};
    }

    /**
     `recover_pending_workflows`: every PENDING row of these executors and this version is recovered on its
     own; every other row stays. `registry` gives the retry limit of a registered name.
     */
    method RecoverPendingWorkflows(
      executors: set<string>, version: string, registry: string -> Option<int>, inputs: Id -> InsertInput)
      returns (recovered: set<Id>, runs: set<Id>)
      requires forall id :: id in wfs && Recoverable(wfs[id].row, executors, version) ==>
        IsRecovery(id, wfs[id].row, inputs(id))
      modifies this
      ensures var pending := set id | id in old(wfs) && Recoverable(old(wfs)[id].row, executors, version);
        && wfs == RecoveredIn(old(wfs), pending, registry, inputs)
        && runs == RunsIn(old(wfs), pending, registry, inputs)
        && recovered == RecoveredIdsIn(old(wfs), pending, registry, inputs)
    {
      var todo := ListPendingForRecovery(executors, version);
      ghost var was, done: set<Id> := wfs, {};
      recovered, runs := {}, {};
      ghost var pending := todo;
      while todo != {}
        invariant todo <= pending && done == pending - todo
        invariant wfs == RecoveredIn(was, done, registry, inputs)
        invariant runs == RunsIn(was, done, registry, inputs)
        invariant recovered == RecoveredIdsIn(was, done, registry, inputs)
        decreases |todo|
      {
        var id :| id in todo;
        assert id in pending;
        recovered, runs := RecoverNext(id, registry, inputs, recovered, runs, was, done);
        todo, done := todo - {id}, done + {id};
      }
      assert done == pending;
    }
  }
}
