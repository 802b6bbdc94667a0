/**
 The durable operations of a workflow body and the transactions that checkpoint them.
 A transaction is a function to the database after it and its result; a failed one rolls back.
 */
module Operations {
  import opened Wrappers
  import opened Tables
  import opened StatusTable

  /** What a body asks the runtime for next. */
  datatype Action =
    | Step(name: string)
    | Send(dest: Id, topic: string, message: string)
    | Recv(topic: string, timeout: nat)
    | SetEvent(key: Key, value: string)
    | GetEvent(target: Id, key: Key, timeout: nat)
    | Write(key: Key, text: Encoded)
    | Close(key: Key)
    | Sleep(ms: nat)
    | Child(name: string)
    | Return(result: Result<string, string>)

  /** What the body sees of a finished operation: a stored value with its format, nothing, or an error text. */
  datatype Outcome =
    | Unit
    | Value(data: Option<Payload>, format: Option<string>)
    | Missing
    | Failed(text: string)
    | Handle(child: Id)

  datatype DbError =
    | NonExistentWorkflow
    | ForeignKey
    | WorkflowCancelled
    | UnexpectedStep
    | ConflictingId
    | ClosedStream
    | BadPayload
    | ChildRejected
    | DeadLetterQueue
    | InsideStep

  /** The database after a transaction and what the transaction returned. */
  datatype Tx<T> = Tx(db: Db, result: Result<T, DbError>)

  function ActionName(a: Action): string {
    match a
    case Step(name) => name
    case Send(_, _, _) => "DBOS.send"
    case Recv(_, _) => "DBOS.recv"
    case SetEvent(_, _) => "DBOS.setEvent"
    case GetEvent(_, _, _) => "DBOS.getEvent"
    case Write(_, _) => "DBOS.writeStream"
    case Close(_) => "DBOS.closeStream"
    case Sleep(_) => SLEEP_NAME
    case Child(name) => name
    case Return(_) => ""
  }

  /** Step ids an operation takes: the timed ones reserve a second one for their deadline. */
  function Slots(a: Action): nat {
    if a.Recv? || a.GetEvent? then 2 else 1
  }

  function TopicOf(topic: string): string {
    if topic == "" then NULL_TOPIC else topic
  }

  function UnitOp(name: string): Op {
    Op(name, Some(Text("null")), None, None, Some(PORTABLE))
  }

  function SleepOp(end: int): Op {
    Op(SLEEP_NAME, Some(Millis(end)), None, None, Some(PORTABLE))
  }

  predicate IsSleepOp(op: Op) {
    op.name == SLEEP_NAME && op.output.Some? && op.output.value.Millis? && op.error.None?
  }

  function DeadlineOf(op: Op): int
    requires IsSleepOp(op)
  {
    op.output.value.ms
  }

  // ---- check_operation_execution, record_operation_result -------------------------------------

  function CheckOperation(db: Db, w: Id, i: nat, name: string): Result<Option<Op>, DbError> {
    if w !in db then Err(NonExistentWorkflow)
    else if db[w].row.status.Cancelled? then Err(WorkflowCancelled)
    else if i !in db[w].ops then Ok(None)
    else if db[w].ops[i].name != name then Err(UnexpectedStep)
    else Ok(Some(db[w].ops[i]))
  }

  function RecordOp<T>(before: Db, db: Db, w: Id, i: nat, op: Op, value: T): Tx<T> {
    if w !in db then Tx(before, Err(ForeignKey))
    else if i in db[w].ops then Tx(before, Err(ConflictingId))
    else Tx(db[w := db[w].(ops := db[w].ops[i := op])], Ok(value))
  }

  // ---- decoding a recorded operation ------------------------------------------------------------

  /** A value or error: `replay_step`. */
  function DecodeStep(op: Op): Outcome {
    if op.error.Some? then Failed(op.error.value) else Value(op.output, op.format)
  }

  /** A value, an error or nothing: `decode_optional`. */
  function DecodeOptional(op: Op): Outcome {
    if op.error.Some? then Failed(op.error.value)
    else if op.output.None? then Missing
    else Value(op.output, op.format)
  }

  function Decode(a: Action, op: Op): Outcome {
    match a
    case Step(_) => DecodeStep(op)
    case Recv(_, _) => DecodeOptional(op)
    case GetEvent(_, _, _) => DecodeOptional(op)
    case Child(_) => if op.child.Some? then Handle(op.child.value) else Unit
    case _ => Unit
  }

  // ---- step ---------------------------------------------------------------------------------------

  /** A step body either returned a value or failed with an error. */
  predicate IsStepResult(o: Outcome) {
    o.Failed? || (o.Value? && o.data.Some? && o.format == Some(PORTABLE))
  }

  function StepOp(name: string, o: Outcome): Op
    requires IsStepResult(o)
  {
    if o.Failed? then Op(name, None, Some(o.text), None, Some(PORTABLE))
    else Op(name, o.data, None, None, Some(PORTABLE))
  }

  function StepTx(db: Db, w: Id, i: nat, name: string, o: Outcome): Tx<Outcome>
    requires IsStepResult(o)
  {
    RecordOp(db, db, w, i, StepOp(name, o), o)
  }

  // ---- send, recv ---------------------------------------------------------------------------------

  function Deliver(db: Db, dest: Id, uuid: string, note: Note): Db
    requires dest in db
  {
    db[dest := db[dest].(inbox := db[dest].inbox[uuid := note])]
  }

  function SendTx(db: Db, w: Id, i: nat, a: Action, uuid: string, now: int): Tx<Outcome>
    requires a.Send?
  {
    if a.dest !in db then Tx(db, Err(NonExistentWorkflow))
    else
      var note := Note(TopicOf(a.topic), a.message, Some(PORTABLE), now, false);
      RecordOp(db, Deliver(db, a.dest, uuid, note), w, i, UnitOp("DBOS.send"), Unit)
  }

  predicate Unread(inbox: Inbox, topic: string, u: string) {
    u in inbox && inbox[u].topic == topic && !inbox[u].consumed
  }

  /** `u` may be returned by ORDER BY created_at ASC LIMIT 1 over the unread messages of a topic. */
  ghost predicate IsOldest(inbox: Inbox, topic: string, u: string) {
    Unread(inbox, topic, u) && forall v :: Unread(inbox, topic, v) ==> inbox[u].createdAt <= inbox[v].createdAt
  }

  ghost predicate IsPick(inbox: Inbox, topic: string, pick: Option<string>) {
    match pick
    case Some(u) => IsOldest(inbox, topic, u)
    case None => forall u :: !Unread(inbox, topic, u)
  }

  function Consume(inbox: Inbox, pick: Option<string>): Inbox {
    if pick.Some? && pick.value in inbox
    then inbox[pick.value := inbox[pick.value].(consumed := true)]
    else inbox
  }

  function FormatOr(format: Option<string>): string {
    if format.Some? then format.value else PORTABLE
  }

  /** What the first `recv` returns: the message decoded with its own format, or nothing. */
  function Received(inbox: Inbox, pick: Option<string>): Outcome {
    if pick.Some? && pick.value in inbox
    then Value(Some(Text(inbox[pick.value].message)), Some(FormatOr(inbox[pick.value].format)))
    else Missing
  }

  function OptionalOp(name: string, o: Outcome): Op {
    if o.Value? then Op(name, o.data, None, None, o.format)
    else Op(name, None, None, None, Some(PORTABLE))
  }

  function RecvTx(db: Db, w: Id, i: nat, pick: Option<string>): Tx<Outcome> {
    if w !in db then Tx(db, Err(NonExistentWorkflow))
    else
      var o := Received(db[w].inbox, pick);
      RecordOp(db, db[w := db[w].(inbox := Consume(db[w].inbox, pick))], w, i, OptionalOp("DBOS.recv", o), o)
  }

  // ---- events -------------------------------------------------------------------------------------

  function SelectEvent(db: Db, target: Id, key: Key): Option<Stored> {
    if target in db && key in db[target].events then Some(db[target].events[key]) else None
  }

  function Observed(found: Option<Stored>): Outcome {
    match found
    case Some(ev) => Value(Some(Text(ev.value)), Some(FormatOr(ev.format)))
    case None => Missing
  }

  function GetEventTx(db: Db, w: Id, i: nat, found: Option<Stored>): Tx<Outcome> {
    RecordOp(db, db, w, i, OptionalOp("DBOS.getEvent", Observed(found)), Observed(found))
  }

  // ---- effects on the workflow's own output tables --------------------------------------------------

  /** The rows operation `a` leaves at step `i`, next to its checkpoint. */
  function Effect(t: Outputs, a: Action, i: nat): Outputs {
    match a
    case SetEvent(key, value) =>
      var stored := Stored(value, Some(PORTABLE));
      t.(history := t.history[(i, key) := stored], events := t.events[key := stored])
    case Write(key, text) =>
      t.(streams := t.streams[(key, NextOffset(t.streams, key)) := Entry(text, i, Some(PORTABLE))])
    case Close(key) =>
      t.(streams := t.streams[(key, NextOffset(t.streams, key)) := Entry(SENTINEL, i, None)])
    case _ => t
  }

  function WithOutputs(x: Workflow, t: Outputs): Workflow {
    x.(history := t.history, events := t.events, streams := t.streams)
  }

  predicate WritesStream(a: Action) {
    a.Write? || a.Close?
  }

  /** `set_event`, `write_stream`, `close_stream`: effect and checkpoint in one transaction. */
  function EffectTx(db: Db, w: Id, i: nat, a: Action): Tx<Outcome>
    requires a.SetEvent? || WritesStream(a)
  {
    if w !in db then Tx(db, Err(NonExistentWorkflow))
    else if WritesStream(a) && StreamClosed(db[w].streams, a.key) then Tx(db, Err(ClosedStream))
    else
      RecordOp(db, db[w := WithOutputs(db[w], Effect(OutputsOf(db[w]), a, i))], w, i, UnitOp(ActionName(a)), Unit)
  }

  // ---- child workflows ------------------------------------------------------------------------------

  /** The parent's transaction: insert or touch the child's row, then record its id. A dead-lettered
      child commits its row alone. */
  function ChildTx(db: Db, w: Id, i: nat, name: string, input: InsertInput, maxRetries: int): Tx<Outcome> {
    var (db1, out) := InsertStatus(db, input, maxRetries);
    if !out.Touched? then Tx(db, Err(ChildRejected))
    else if out.deadLettered then Tx(db1, Err(DeadLetterQueue))
    else RecordOp(db, db1, w, i, Op(name, None, None, Some(input.id), None), Handle(input.id))
  }
}
