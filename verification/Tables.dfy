/**
 The system database. Every table but `dbos_migrations` is keyed by a workflow id whose
 row lives in `workflow_status` (foreign key, ON DELETE CASCADE), so the rows of one workflow
 are grouped with its status row: a missing key is a missing workflow, and removing the
 key is the cascade.
 */
module Tables {
  import opened Wrappers

  type Id = string
  type Key = string

  const SENTINEL := "__DBOS_STREAM_CLOSED__"
  const NULL_TOPIC := "__null__topic__"
  const PORTABLE := "portable_json"
  const SLEEP_NAME := "DBOS.sleep"

  /** JSON text as `encode_value` writes it: never the bare close sentinel
      (Serialize.CompactIsNotSentinel). */
  type Encoded = s: string | s != SENTINEL witness "null"

  datatype Status = Pending | Enqueued | Delayed | Success | Error | Cancelled | DeadLettered

  /** A row of `workflow_status`. */
  datatype Row = Row(
    status: Status,
    name: string,
    inputs: Option<string>,
    queue: Option<string>,
    partition: Option<string>,
    executor: Option<string>,
    version: Option<string>,
    attempts: int,
    createdAt: int,
    updatedAt: int,
    startedAt: Option<int>,
    completedAt: Option<int>,
    output: Option<string>,
    error: Option<string>,
    dedup: Option<string>,
    priority: int,
    owner: Option<string>,
    timeoutMs: Option<int>,
    deadline: Option<int>,
    delayUntil: Option<int>,
    rateLimited: bool,
    forkedFrom: Option<Id>,
    wasForkedFrom: bool
  )

  /** An output column: JSON text, or the epoch milliseconds a durable sleep checkpoints. */
  datatype Payload = Text(text: string) | Millis(ms: int)

  /** A row of `operation_outputs`; `error` holds the message of the stored error envelope. */
  datatype Op = Op(
    name: string,
    output: Option<Payload>,
    error: Option<string>,
    child: Option<Id>,
    format: Option<string>
  )

  /** Value and format of a row of `workflow_events` or `workflow_events_history`. */
  datatype Stored = Stored(value: string, format: Option<string>)

  /** A row of `streams`, keyed by (key, offset). */
  datatype Entry = Entry(value: string, step: nat, format: Option<string>)

  /** A row of `notifications`, keyed by its message id. */
  datatype Note = Note(topic: string, message: string, format: Option<string>, createdAt: int, consumed: bool)

  type History = map<(nat, Key), Stored>
  type Streams = map<(Key, nat), Entry>
  type Inbox = map<string, Note>

  datatype Workflow = Workflow(
    row: Row,
    ops: map<nat, Op>,
    history: History,
    events: map<Key, Stored>,
    streams: Streams,
    inbox: Inbox
  )

  type Db = map<Id, Workflow>

  function Unstarted(row: Row): Workflow {
    Workflow(row, map[], map[], map[], map[], map[])
  }

  /** `workflow_events`, `workflow_events_history` and `streams` of one workflow. */
  datatype Outputs = Outputs(history: History, events: map<Key, Stored>, streams: Streams)

  function OutputsOf(x: Workflow): Outputs {
    Outputs(x.history, x.events, x.streams)
  }

  function MaxOf(s: set<int>): (m: int)
    ensures s == {} ==> m == -1
    ensures s != {} ==> m in s && forall y :: y in s ==> y <= m
  {
    if s == {} then -1
    else
      MaxExists(s);
      var m :| m in s && forall y :: y in s ==> y <= m;
      m
  }

  lemma Element<T>(s: set<T>) returns (x: T)
    requires s != {}
    ensures x in s
  {
    x :| x in s;
  }

  lemma {:induction false} MaxExists(s: set<int>)
    requires s != {}
    ensures exists m :: m in s && forall y :: y in s ==> y <= m
    decreases |s|
  {
    var x := Element(s);
    var rest := s - {x};
    if rest == {} {
      assert forall y :: y in s ==> y == x || y in rest;
    } else {
      MaxExists(rest);
      var m :| m in rest && forall y :: y in rest ==> y <= m;
      var top := if m < x then x else m;
      assert forall y :: y in s ==> y == x || y in rest;
      assert top in s;
    }
  }

  /** COALESCE(MAX(offset), -1) + 1 for one stream. */
  function NextOffset(streams: Streams, key: Key): (n: nat) {
    MaxOf(OffsetsOf(streams, key)) + 1
  }

  function OffsetsOf(streams: Streams, key: Key): set<int> {
    set ko | ko in streams && ko.0 == key :: ko.1 as int
  }

  predicate StreamClosed(streams: Streams, key: Key) {
    exists ko :: ko in streams && ko.0 == key && streams[ko].value == SENTINEL
  }
}
