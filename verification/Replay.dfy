/**
 The replay engine as a state machine: any number of executions of any number of workflows,
 each a body driven from step counter -1, interleaved at the granularity of one database
 transaction with each other, with crashes, with messages from outside and with every row
 transaction of the system database.
 */
module Replay {
  import opened Wrappers
  import opened Tables
  import opened StatusTable
  import opened Operations
  import opened Histories
  import opened Fork

  /** The registered handler for a workflow name, applied to the stored input. */
  type Registry = (string, Option<string>) -> Body

  function BodyOf(reg: Registry, x: Workflow): Body {
    reg(x.row.name, x.row.inputs)
  }

  datatype Phase =
    | Ready
    | Running                        // no checkpoint was found for the operation
    | Recording(end: int)            // about to record a wake-up deadline
    | Asleep(deadline: int)
    | Consuming                      // recv stopped waiting
    | Observing(found: Option<Stored>) // get_event stopped waiting
    | Done(result: Result<string, string>)
    | Dead(error: DbError)

  /** An in-memory execution: `counter` is the atomic step id, `slot` the main id of the current operation. */
  datatype Exec = Exec(wf: Id, counter: int, slot: nat, hist: seq<Outcome>, phase: Phase)

  /** Everything a commit may pick: a step's result, a fresh message id, the message a query
      returned, and the row offered for a child. */
  datatype Choice = Choice(result: Outcome, uuid: string, pick: Option<string>, child: InsertInput, maxRetries: int)

  /**
   `issued`: message ids handed out so far. `sent`, `taken`: which operation inserted and which
   one consumed a message. `own`: operations committed by the workflow itself, not copied by a
   fork. `gone`: workflows deleted so far. The last four observe the run; no transition reads them.
   */
  datatype Sys = Sys(
    db: Db,
    execs: map<nat, Exec>,
    now: int,
    issued: set<string>,
    sent: map<string, (Id, nat)>,
    taken: map<string, (Id, nat)>,
    own: map<(Id, nat), Action>,
    gone: set<Id>
  )

  datatype Label =
    | Start(e: nat, wf: Id)
    | Look(e: nat)
    | LookDeadline(e: nat)
    | RecordDeadline(e: nat)
    | Wake(e: nat)
    | Poll(e: nat)
    | Commit(e: nat, choice: Choice)
    | Crash(e: nat)
    | Tick(now: int)
    | Post(dest: Id, uuid: string, note: Note)
    | Rows(db: Db)

  // ---- one execution --------------------------------------------------------------------------------

  /** Ask the body, take its step ids, read the checkpoint. A cancelled or missing workflow ends the
      execution in the status guard before; that is a `Crash` here. */
  function AfterLook(a: Action, ops: map<nat, Op>, e: Exec, now: int): Exec
    requires e.counter >= -1
  {
    var m := e.counter + 1;
    var y := e.(counter := e.counter + Slots(a), slot := m);
    if a.Return? then e.(phase := Done(a.result))
    else if a.Child? then
      if m in ops && ops[m].child.Some? then y.(hist := e.hist + [Decode(a, ops[m])]) else y.(phase := Running)
    else if m !in ops then y.(phase := if a.Sleep? then Recording(now + a.ms) else Running)
    else if ops[m].name != ActionName(a) then y.(phase := Dead(UnexpectedStep))
    else if a.Sleep? then
      y.(phase := if IsSleepOp(ops[m]) then Asleep(DeadlineOf(ops[m])) else Dead(BadPayload))
    else y.(hist := e.hist + [Decode(a, ops[m])])
  }

  function TimeoutOf(a: Action): nat {
    if a.Recv? || a.GetEvent? then a.timeout else 0
  }

  /** The `record_sleep` lookup of `recv` and `get_event`, at their second step id. */
  function AfterLookDeadline(a: Action, ops: map<nat, Op>, e: Exec, now: int): Exec {
    var d := e.slot + 1;
    if d !in ops then e.(phase := Recording(now + TimeoutOf(a)))
    else if ops[d].name != SLEEP_NAME then e.(phase := Dead(UnexpectedStep))
    else e.(phase := if IsSleepOp(ops[d]) then Asleep(DeadlineOf(ops[d])) else Dead(BadPayload))
  }

  function DeadlineSlot(a: Action, m: nat): nat {
    if a.Sleep? then m else m + 1
  }

  /** Insert the deadline; the loser of the primary key reads the winner's back. */
  function DeadlineTx(db: Db, w: Id, d: nat, end: int): Tx<int> {
    var tx := RecordOp(db, db, w, d, SleepOp(end), end);
    if tx.result.Err? && w in db && d in db[w].ops && IsSleepOp(db[w].ops[d])
    then Tx(db, Ok(DeadlineOf(db[w].ops[d])))
    else tx
  }

  function AfterTx(e: Exec, o: Result<Outcome, DbError>): Exec {
    match o
    case Ok(v) => e.(hist := e.hist + [v], phase := Ready)
    case Err(error) => e.(phase := Dead(error))
  }

  ghost predicate AnyUnread(inbox: Inbox, topic: string) {
    exists u :: Unread(inbox, topic, u)
  }

  /** One turn of the waiting loop of `recv` or `get_event`. */
  ghost function AfterPoll(a: Action, db: Db, e: Exec, now: int): Exec
    requires e.phase.Asleep? && e.wf in db
  {
    var late := e.phase.deadline <= now;
    match a
    case Recv(topic, _) => if AnyUnread(db[e.wf].inbox, TopicOf(topic)) || late then e.(phase := Consuming) else e
    case GetEvent(target, key, _) =>
      var found := SelectEvent(db, target, key);
      if found.Some? || late then e.(phase := Observing(found)) else e
    case _ => e
  }

  /** The phase in which an operation commits. */
  predicate CommitPhase(a: Action, p: Phase) {
    match a
    case Recv(_, _) => p.Consuming?
    case GetEvent(_, _, _) => p.Observing?
    case Sleep(_) => false
    case Return(_) => false
    case _ => p.Running?
  }

  ghost predicate ValidChoice(s: Sys, a: Action, e: Exec, c: Choice) {
    match a
    case Step(_) => IsStepResult(c.result)
    case Send(_, _, _) => c.uuid !in s.issued
    case Recv(topic, _) => e.wf in s.db && IsPick(s.db[e.wf].inbox, TopicOf(topic), c.pick)
    case Child(name) => c.child.row.name == name && (c.child.id in s.db || c.child.id !in Live(s))
    case _ => true
  }

  function CommitTx(db: Db, a: Action, e: Exec, c: Choice, now: int): Tx<Outcome>
    requires CommitPhase(a, e.phase)
    requires a.Step? ==> IsStepResult(c.result)
  {
    match a
    case Step(name) => StepTx(db, e.wf, e.slot, name, c.result)
    case Send(_, _, _) => SendTx(db, e.wf, e.slot, a, c.uuid, now)
    case Recv(_, _) => RecvTx(db, e.wf, e.slot, c.pick)
    case GetEvent(_, _, _) => GetEventTx(db, e.wf, e.slot, e.phase.found)
    case Child(name) => ChildTx(db, e.wf, e.slot, name, c.child, c.maxRetries)
    case SetEvent(_, _) => EffectTx(db, e.wf, e.slot, a)
    case Write(_, _) => EffectTx(db, e.wf, e.slot, a)
    case Close(_) => EffectTx(db, e.wf, e.slot, a)
  }

  // ---- the system -----------------------------------------------------------------------------------

  /** A workflow a row transaction may create: one without checkpoints, or a fork. */
  ghost predicate IsNew(db: Db, x: Workflow) {
    x == Unstarted(x.row) || exists w, input :: w in db && x == ForkWorkflow(db[w], input)
  }

  /** Surviving workflows keep their checkpoints, new ones are empty or forks. Any workflow may be deleted, even
      under a live execution; a new one does not take the id of an execution that outlived its row. */
  ghost predicate TablesFrame(db: Db, db': Db, live: set<Id>) {
    && (forall w :: w in db && w in db' ==> SameTables(db[w], db'[w]))
    && (forall w :: w in db' && w !in db ==> w !in live && IsNew(db, db'[w]))
  }

  /** What every transaction outside the executions does to checkpoints and messages. */
  ghost predicate RowFrame(db: Db, db': Db, live: set<Id>) {
    TablesFrame(db, db', live)
    && forall w :: w in db' ==> db'[w].inbox == if w in db then db[w].inbox else map[]
  }

  ghost function Live(s: Sys): set<Id> {
    set e | e in s.execs :: s.execs[e].wf
  }

  ghost predicate Can(reg: Registry, s: Sys, e: nat) {
    e in s.execs && s.execs[e].wf in s.db
  }

  ghost function Asked(reg: Registry, s: Sys, e: nat): Action
    requires Can(reg, s, e)
  {
    BodyOf(reg, s.db[s.execs[e].wf])(s.execs[e].hist)
  }

  ghost function OpsAt(reg: Registry, s: Sys, e: nat): map<nat, Op>
    requires Can(reg, s, e)
  {
    s.db[s.execs[e].wf].ops
  }

  function SetExec(s: Sys, e: nat, x: Exec): Sys {
    s.(execs := s.execs[e := x])
  }

  ghost predicate Next(reg: Registry, s: Sys, l: Label, s': Sys) {
    match l
    case Start(e, wf) => e !in s.execs && wf in s.db && s' == SetExec(s, e, Exec(wf, -1, 0, [], Ready))
    case Crash(e) => e in s.execs && s' == s.(execs := s.execs - {e})
    case Tick(now) => s.now <= now && s' == s.(now := now)
    case Look(e) =>
      && Can(reg, s, e) && s.execs[e].phase.Ready? && s.execs[e].counter >= -1
      && s' == SetExec(s, e, AfterLook(Asked(reg, s, e), OpsAt(reg, s, e), s.execs[e], s.now))
    case LookDeadline(e) =>
      && Can(reg, s, e) && s.execs[e].phase.Running? && Slots(Asked(reg, s, e)) == 2
      && s' == SetExec(s, e, AfterLookDeadline(Asked(reg, s, e), OpsAt(reg, s, e), s.execs[e], s.now))
    case RecordDeadline(e) =>
      && Can(reg, s, e) && s.execs[e].phase.Recording?
      && RecordsDeadline(s, Asked(reg, s, e), e, s')
    case Wake(e) =>
      && Can(reg, s, e) && s.execs[e].phase.Asleep? && s.execs[e].phase.deadline <= s.now && Asked(reg, s, e).Sleep?
      && s' == SetExec(s, e, AfterTx(s.execs[e], Ok(Unit)))
    case Poll(e) =>
      && Can(reg, s, e) && s.execs[e].phase.Asleep?
      && s' == SetExec(s, e, AfterPoll(Asked(reg, s, e), s.db, s.execs[e], s.now))
    case Commit(e, c) =>
      && Can(reg, s, e) && CommitPhase(Asked(reg, s, e), s.execs[e].phase)
      && ValidChoice(s, Asked(reg, s, e), s.execs[e], c)
      && s' == Committed(s, Asked(reg, s, e), e, c)
    case Post(dest, uuid, note) =>
      && dest in s.db && uuid !in s.issued && !note.consumed && note.createdAt == s.now
      && s' == s.(db := Deliver(s.db, dest, uuid, note), issued := s.issued + {uuid})
    case Rows(db') => RowFrame(s.db, db', Live(s)) && s' == Surviving(s, db')
  }

  ghost predicate RecordsDeadline(s: Sys, a: Action, e: nat, s': Sys)
    requires e in s.execs && s.execs[e].phase.Recording?
  {
    var x := s.execs[e];
    var tx := DeadlineTx(s.db, x.wf, DeadlineSlot(a, x.slot), x.phase.end);
    s' == SetExec(s, e, x.(phase := if tx.result.Ok? then Asleep(tx.result.value) else Dead(tx.result.error)))
          .(db := tx.db)
  }

  ghost function Committed(s: Sys, a: Action, e: nat, c: Choice): Sys
    requires e in s.execs && CommitPhase(a, s.execs[e].phase) && (a.Step? ==> IsStepResult(c.result))
  {
    var x := s.execs[e];
    var tx := CommitTx(s.db, a, x, c, s.now);
    var t := SetExec(s, e, AfterTx(x, tx.result)).(db := tx.db);
    if tx.result.Err? then t
    else t.(own := s.own[(x.wf, x.slot) := a],
            issued := if a.Send? then s.issued + {c.uuid} else s.issued,
            sent := if a.Send? then s.sent[c.uuid := (x.wf, x.slot)] else s.sent,
            taken := if a.Recv? && c.pick.Some? then s.taken[c.pick.value := (x.wf, x.slot)] else s.taken)
  }

  /** A deleted workflow takes the observations about its operations along. */
  ghost function Surviving(s: Sys, db': Db): Sys {
    s.(db := db',
       sent := map u | u in s.sent && s.sent[u].0 in db' :: s.sent[u],
       taken := map u | u in s.taken && s.taken[u].0 in db' :: s.taken[u],
       own := map o | o in s.own && o.0 in db' :: s.own[o],
       gone := s.gone + (s.db.Keys - db'.Keys))
  }

  ghost predicate Init(s: Sys) {
    && s.db == map[] && s.execs == map[] && s.issued == {} && s.sent == map[] && s.taken == map[] && s.own == map[]
    && s.gone == {}
  }

  /** A run: states linked by labelled transitions. */
  ghost predicate Run(reg: Registry, ss: seq<Sys>, ls: seq<Label>) {
    |ss| == |ls| + 1 && Init(ss[0]) && forall i :: 0 <= i < |ls| ==> Next(reg, ss[i], ls[i], ss[i + 1])
  }

  // ---- invariant ------------------------------------------------------------------------------------

  ghost predicate WorkflowOk(reg: Registry, x: Workflow) {
    exists h :: Frontier(BodyOf(reg, x), x, h)
  }

  /** A sleep in the past of an execution is over. */
  ghost predicate Slept(b: Body, ops: map<nat, Op>, h: seq<Outcome>, k: nat, now: int)
    requires k < |h|
  {
    var i := Pos(b, h[..k]);
    b(h[..k]).Sleep? ==> i in ops && IsSleepOp(ops[i]) && DeadlineOf(ops[i]) <= now
  }

  ghost predicate DeadlineRow(ops: map<nat, Op>, d: nat, deadline: int) {
    d in ops && IsSleepOp(ops[d]) && DeadlineOf(ops[d]) == deadline
  }

  ghost predicate PhaseOk(a: Action, ops: map<nat, Op>, e: Exec) {
    match e.phase
    case Running => !a.Sleep?
    case Recording(_) => a.Sleep? || Slots(a) == 2
    case Asleep(deadline) => (a.Sleep? || Slots(a) == 2) && DeadlineRow(ops, DeadlineSlot(a, e.slot), deadline)
    case Consuming => a.Recv? && e.slot + 1 in ops
    case Observing(_) => a.GetEvent? && e.slot + 1 in ops
    case _ => true
  }

  ghost predicate ExecOk(b: Body, ops: map<nat, Op>, e: Exec, now: int) {
    && Trace(b, ops, e.hist)
    && (forall k :: 0 <= k < |e.hist| ==> Slept(b, ops, e.hist, k, now))
    && match e.phase
       case Ready => e.counter + 1 == Pos(b, e.hist)
       case Done(r) => b(e.hist) == Return(r)
       case Dead(error) => !error.UnexpectedStep? && !error.BadPayload?
       case _ =>
         var a := b(e.hist);
         e.slot == Pos(b, e.hist) && e.counter + 1 == e.slot + Slots(a) && !a.Return? && PhaseOk(a, ops, e)
  }

  /** An execution never ended by finding another step recorded, and is in order while its workflow exists. */
  ghost predicate GoodExec(reg: Registry, db: Db, x: Exec, now: int) {
    && x.phase != Dead(UnexpectedStep) && x.phase != Dead(BadPayload)
    && (x.wf in db ==> ExecOk(BodyOf(reg, db[x.wf]), db[x.wf].ops, x, now))
  }

  ghost predicate ExecsOk(reg: Registry, s: Sys) {
    forall e {:trigger GoodExec(reg, s.db, s.execs[e], s.now)} ::
      e in s.execs ==> GoodExec(reg, s.db, s.execs[e], s.now)
  }

  ghost predicate Inv(reg: Registry, s: Sys) {
    (forall w {:trigger WorkflowOk(reg, s.db[w])} :: w in s.db ==> WorkflowOk(reg, s.db[w])) && ExecsOk(reg, s)
  }
}
