/** `fork_workflow`: a new ENQUEUED workflow holding a copy of the original's checkpoints below `start`. */
module Fork {
  import opened Wrappers
  import opened Tables

  function OpsBelow(ops: map<nat, Op>, s: int): map<nat, Op> {
    map i | i in ops && i < s :: ops[i]
  }

  function HistoryBelow(history: History, s: int): History {
    map ik | ik in history && ik.0 < s :: history[ik]
  }

  function StreamsBelow(streams: Streams, s: int): Streams {
    map ko | ko in streams && streams[ko].step < s :: streams[ko]
  }

  /** MAX(function_id) GROUP BY key. */
  function LatestStep(history: History, key: Key): int {
    MaxOf(set ik | ik in history && ik.1 == key :: ik.0 as int)
  }

  /** For each key the row of its greatest function_id. */
  function CurrentEvents(history: History): map<Key, Stored> {
    map ik | ik in history && ik.0 == LatestStep(history, ik.1) :: ik.1 := history[ik]
  }

  function OutputsBelow(t: Outputs, s: int): Outputs {
    var history := HistoryBelow(t.history, s);
    Outputs(history, CurrentEvents(history), StreamsBelow(t.streams, s))
  }

  /** What the new row takes from the request rather than from the original. */
  datatype ForkInput = ForkInput(
    original: Id, forked: Id, start: int, queue: string, partition: Option<string>, version: Option<string>, now: int)

  function ForkRow(original: Row, input: ForkInput): Row {
    Row(Enqueued, original.name, original.inputs, Some(input.queue), input.partition, None, input.version, 0,
        input.now, input.now, None, None, None, None, None, 0, None, None, None, None, false,
        Some(input.original), false)
  }

  function ForkWorkflow(x: Workflow, input: ForkInput): Workflow {
    if input.start > 0 then
      var t := OutputsBelow(OutputsOf(x), input.start);
      Workflow(ForkRow(x.row, input), OpsBelow(x.ops, input.start), t.history, t.events, t.streams, map[])
    else Unstarted(ForkRow(x.row, input))
  }

  /** The whole transaction; the insert fails when the new id is taken. */
  function ForkTx(db: Db, input: ForkInput): Db
    requires input.original in db && input.forked !in db
  {
    var x := db[input.original];
    db[input.original := x.(row := x.row.(wasForkedFrom := true))][input.forked := ForkWorkflow(x, input)]
  }
}
