/** The invariant of the replay engine holds in every state of every run. */
module ReplayProofs {
  import opened Wrappers
  import opened Tables
  import opened StatusTable
  import opened Operations
  import opened Histories
  import opened Fork
  import opened ForkProofs
  import opened Replay

  // ---- executions -----------------------------------------------------------------------------------

  /** Rows appended elsewhere leave an execution's reading of its own history intact. */
  lemma ExecGrown(b: Body, ops: map<nat, Op>, ops': map<nat, Op>, e: Exec, now: int, now': int)
    requires ExecOk(b, ops, e, now) && Grown(ops, ops') && now <= now'
    requires forall i {:trigger IsSleepOp(ops'[i])} ::
      i in ops' && i !in ops && i < Pos(b, e.hist) ==> IsSleepOp(ops'[i])
    ensures ExecOk(b, ops', e, now')
  {
    TraceGrown(b, ops, ops', e.hist);
    forall k | 0 <= k < |e.hist| ensures Slept(b, ops', e.hist, k, now') {
      assert Slept(b, ops, e.hist, k, now);
    }
  }

  /** Reading or writing a checkpoint that is there extends an execution's history by one outcome. */
  lemma ExecAdvance(b: Body, ops: map<nat, Op>, e: Exec, o: Outcome, now: int, y: Exec)
    requires Trace(b, ops, e.hist) && forall k :: 0 <= k < |e.hist| ==> Slept(b, ops, e.hist, k, now)
    requires Recorded(ops, b(e.hist), Pos(b, e.hist)) && o == Decode(b(e.hist), ops[Pos(b, e.hist)])
    requires b(e.hist).Sleep? ==> DeadlineOf(ops[Pos(b, e.hist)]) <= now
    requires y.hist == e.hist + [o] && y.phase.Ready? && y.counter + 1 == Pos(b, e.hist) + Slots(b(e.hist))
    ensures ExecOk(b, ops, y, now)
  {
    var h := e.hist;
    TraceExtend(b, ops, h, o);
    PosExtend(b, h, o);
    forall k | 0 <= k < |h| + 1 ensures Slept(b, ops, h + [o], k, now) {
      assert (h + [o])[..k] == h[..k];
      if k < |h| {
        assert Slept(b, ops, h, k, now);
      } else {
        assert h[..k] == h;
      }
    }
  }

  lemma LookOk(b: Body, x: Workflow, h: seq<Outcome>, e: Exec, now: int)
    requires Frontier(b, x, h) && ExecOk(b, x.ops, e, now) && e.phase.Ready? && e.counter >= -1
    ensures ExecOk(b, x.ops, AfterLook(b(e.hist), x.ops, e, now), now)
  {
    var a, m := b(e.hist), e.counter + 1;
    if m in x.ops {
      RowIsExpected(b, x.ops, h, e.hist);
      if !a.Sleep? {
        ExecAdvance(b, x.ops, e, Decode(a, x.ops[m]), now,
                    e.(counter := e.counter + Slots(a), slot := m, hist := e.hist + [Decode(a, x.ops[m])]));
      }
    }
  }

  lemma LookDeadlineOk(b: Body, x: Workflow, h: seq<Outcome>, e: Exec, now: int)
    requires Frontier(b, x, h) && ExecOk(b, x.ops, e, now) && e.phase.Running? && Slots(b(e.hist)) == 2
    ensures ExecOk(b, x.ops, AfterLookDeadline(b(e.hist), x.ops, e, now), now)
  {
    if e.slot + 1 in x.ops {
      DeadlineIsSleep(b, x.ops, h, e.hist, e.slot + 1);
    }
  }

  // ---- transactions ---------------------------------------------------------------------------------

  /** A transaction of workflow `w`: no other workflow's checkpoints change, new workflows are empty. */
  ghost predicate Elsewhere(db: Db, db': Db, w: Id) {
    && (forall v :: v in db ==> v in db' && SameIdentity(db[v].row, db'[v].row))
    && (forall v :: v in db && v != w ==> SameTables(db[v], db'[v]))
    && (forall v :: v in db' && v !in db ==> db'[v] == Unstarted(db'[v].row))
  }

  /** Insert-or-touch changes at most one row, and no checkpoint. */
  lemma InsertElsewhere(db: Db, input: InsertInput, maxRetries: int, w: Id)
    ensures var db' := InsertStatus(db, input, maxRetries).0;
      Elsewhere(db, db', w) && (w in db ==> SameTables(db[w], db'[w]))
  {
    var db' := InsertStatus(db, input, maxRetries).0;
    if db' != db {
      var id := input.id;
      assert db' == db[id := db'[id]];
      if id in db {
        assert SameIdentity(db[id].row, db'[id].row);
        assert SameTables(db[id], db'[id]);
      } else {
        assert db'[id] == Unstarted(db'[id].row);
      }
    }
  }

  /** A committed operation leaves its checkpoint and its effect, and nothing else; a failed one leaves nothing. */
  ghost predicate Shape(db: Db, a: Action, w: Id, i: nat, op: Op, tx: Tx<Outcome>)
    requires w in db
  {
    && Elsewhere(db, tx.db, w)
    && match tx.result
       case Err(error) => SameTables(db[w], tx.db[w]) && !error.UnexpectedStep? && !error.BadPayload?
       case Ok(o) =>
         && i !in db[w].ops && tx.db[w].ops == db[w].ops[i := op]
         && OutputsOf(tx.db[w]) == Effect(OutputsOf(db[w]), a, i)
         && op.name == ActionName(a) && (a.Child? ==> op.child.Some?) && o == Decode(a, op)
         && (WritesStream(a) ==> !StreamClosed(db[w].streams, a.key))
  }

  /** The last statement of every transaction: record the checkpoint, or roll back. */
  lemma RecordShape(db: Db, db1: Db, w: Id, i: nat, a: Action, op: Op, o: Outcome)
    requires w in db && w in db1 && Elsewhere(db, db1, w) && db1[w].ops == db[w].ops
    requires OutputsOf(db1[w]) == Effect(OutputsOf(db[w]), a, i)
    requires op.name == ActionName(a) && (a.Child? ==> op.child.Some?) && o == Decode(a, op)
    requires WritesStream(a) ==> !StreamClosed(db[w].streams, a.key)
    ensures Shape(db, a, w, i, op, RecordOp(db, db1, w, i, op, o))
  {
    var tx := RecordOp(db, db1, w, i, op, o);
    if i !in db[w].ops {
      assert OutputsOf(tx.db[w]) == OutputsOf(db1[w]);
      assert forall v :: v in db1 && v != w ==> tx.db[v] == db1[v];
    }
  }

  lemma SendShape(db: Db, w: Id, i: nat, a: Action, uuid: string, now: int)
    requires a.Send? && w in db
    ensures Shape(db, a, w, i, UnitOp("DBOS.send"), SendTx(db, w, i, a, uuid, now))
  {
    if a.dest in db {
      var db1 := Deliver(db, a.dest, uuid, Note(TopicOf(a.topic), a.message, Some(PORTABLE), now, false));
      RecordShape(db, db1, w, i, a, UnitOp("DBOS.send"), Unit);
    }
  }

  lemma RecvShape(db: Db, w: Id, i: nat, a: Action, pick: Option<string>)
    requires a.Recv? && w in db
    ensures Shape(db, a, w, i, OptionalOp("DBOS.recv", Received(db[w].inbox, pick)), RecvTx(db, w, i, pick))
  {
    var o := Received(db[w].inbox, pick);
    var db1 := db[w := db[w].(inbox := Consume(db[w].inbox, pick))];
    RecordShape(db, db1, w, i, a, OptionalOp("DBOS.recv", o), o);
  }

  lemma EffectShape(db: Db, w: Id, i: nat, a: Action)
    requires (a.SetEvent? || WritesStream(a)) && w in db
    ensures Shape(db, a, w, i, UnitOp(ActionName(a)), EffectTx(db, w, i, a))
  {
    if !(WritesStream(a) && StreamClosed(db[w].streams, a.key)) {
      var t := Effect(OutputsOf(db[w]), a, i);
      assert OutputsOf(WithOutputs(db[w], t)) == t;
      RecordShape(db, db[w := WithOutputs(db[w], t)], w, i, a, UnitOp(ActionName(a)), Unit);
    }
  }

  lemma ChildShape(db: Db, w: Id, i: nat, a: Action, input: InsertInput, maxRetries: int)
    requires a.Child? && w in db
    ensures Shape(db, a, w, i, Op(a.name, None, None, Some(input.id), None),
                  ChildTx(db, w, i, a.name, input, maxRetries))
  {
    InsertElsewhere(db, input, maxRetries, w);
    var (db1, out) := InsertStatus(db, input, maxRetries);
    RecordShape(db, db1, w, i, a, Op(a.name, None, None, Some(input.id), None), Handle(input.id));
  }

  lemma CommitShape(db: Db, a: Action, e: Exec, c: Choice, now: int)
    returns (op: Op)
    requires e.wf in db && CommitPhase(a, e.phase) && (a.Step? ==> IsStepResult(c.result))
    ensures Shape(db, a, e.wf, e.slot, op, CommitTx(db, a, e, c, now))
  {
    op := UnitOp(ActionName(a));
    var w, i := e.wf, e.slot;
    match a
    case Step(name) =>
      op := StepOp(name, c.result);
      RecordShape(db, db, w, i, a, op, c.result);
    case Send(_, _, _) => SendShape(db, w, i, a, c.uuid, now);
    case Recv(_, _) =>
      op := OptionalOp("DBOS.recv", Received(db[w].inbox, c.pick));
      RecvShape(db, w, i, a, c.pick);
    case GetEvent(_, _, _) =>
      op := OptionalOp("DBOS.getEvent", Observed(e.phase.found));
      RecordShape(db, db, w, i, a, op, Observed(e.phase.found));
    case Child(name) =>
      op := Op(name, None, None, Some(c.child.id), None);
      ChildShape(db, w, i, a, c.child, c.maxRetries);
    case SetEvent(_, _) => EffectShape(db, w, i, a);
    case Write(_, _) => EffectShape(db, w, i, a);
    case Close(_) => EffectShape(db, w, i, a);
  }

  // ---- the invariant --------------------------------------------------------------------------------

  lemma SameWorkflowOk(reg: Registry, x: Workflow, y: Workflow)
    requires WorkflowOk(reg, x) && SameTables(x, y)
    ensures WorkflowOk(reg, y)
  {
    var h :| Frontier(BodyOf(reg, x), x, h);
    assert Frontier(BodyOf(reg, y), y, h);
  }

  lemma UnstartedOk(reg: Registry, row: Row)
    ensures WorkflowOk(reg, Unstarted(row))
  {
    assert Frontier(BodyOf(reg, Unstarted(row)), Unstarted(row), []);
  }

  /** One execution moves, no table changes. */
  lemma InvSetExec(reg: Registry, s: Sys, e: nat, y: Exec)
    requires Inv(reg, s) && GoodExec(reg, s.db, y, s.now)
    ensures Inv(reg, SetExec(s, e, y))
  {
    forall f | f in s.execs ensures GoodExec(reg, s.db, s.execs[f], s.now) {
    }
  }

  /** No checkpoint of a surviving workflow changes, and every history read before can be read after. */
  ghost predicate Advances(reg: Registry, db: Db, db': Db) {
    forall w :: w in db && w in db' ==>
      && SameIdentity(db[w].row, db'[w].row)
      && Grown(db[w].ops, db'[w].ops) && RowsLate(BodyOf(reg, db[w]), db[w].ops, db'[w].ops)
  }

  lemma WorkflowsGrow(reg: Registry, s: Sys, w: Id, db': Db)
    requires Inv(reg, s) && w in s.db && Elsewhere(s.db, db', w) && WorkflowOk(reg, db'[w])
    ensures forall v :: v in db' ==> WorkflowOk(reg, db'[v])
  {
    forall v | v in db' ensures WorkflowOk(reg, db'[v]) {
      if v !in s.db {
        UnstartedOk(reg, db'[v].row);
      } else if v != w {
        assert WorkflowOk(reg, s.db[v]);
        SameWorkflowOk(reg, s.db[v], db'[v]);
      }
    }
  }

  /** A new workflow takes no id of a live execution. */
  ghost predicate NewIdsFree(s: Sys, db': Db) {
    forall v :: v in db' && v !in s.db ==> v !in Live(s)
  }

  lemma OtherExecGrows(reg: Registry, s: Sys, w: Id, db': Db, f: nat)
    requires ExecsOk(reg, s) && w in s.db && Elsewhere(s.db, db', w) && NewIdsFree(s, db')
    requires Grown(s.db[w].ops, db'[w].ops) && RowsLate(BodyOf(reg, s.db[w]), s.db[w].ops, db'[w].ops)
    requires f in s.execs
    ensures GoodExec(reg, db', s.execs[f], s.now)
  {
    var x := s.execs[f];
    assert GoodExec(reg, s.db, x, s.now) && x.wf in Live(s);
    if x.wf in s.db {
      ExecGrown(BodyOf(reg, s.db[x.wf]), s.db[x.wf].ops, db'[x.wf].ops, x, s.now, s.now);
    }
  }

  lemma AdvancesAt(reg: Registry, db: Db, db': Db, w: Id)
    requires w in db && Elsewhere(db, db', w)
    requires Grown(db[w].ops, db'[w].ops) && RowsLate(BodyOf(reg, db[w]), db[w].ops, db'[w].ops)
    ensures Advances(reg, db, db')
  {
  }

  /** Workflow `w` gains rows and execution `e` moves. */
  lemma InvGrow(reg: Registry, s: Sys, w: Id, e: nat, y: Exec, s': Sys)
    requires Inv(reg, s) && w in s.db && y.wf == w
    requires s'.now == s.now && s'.execs == s.execs[e := y] && Elsewhere(s.db, s'.db, w) && NewIdsFree(s, s'.db)
    requires WorkflowOk(reg, s'.db[w])
    requires Grown(s.db[w].ops, s'.db[w].ops) && RowsLate(BodyOf(reg, s.db[w]), s.db[w].ops, s'.db[w].ops)
    requires ExecOk(BodyOf(reg, s.db[w]), s'.db[w].ops, y, s'.now)
    ensures Inv(reg, s') && Advances(reg, s.db, s'.db)
  {
    AdvancesAt(reg, s.db, s'.db, w);
    WorkflowsGrow(reg, s, w, s'.db);
    forall f | f in s.execs
      ensures GoodExec(reg, s'.db, s.execs[f], s'.now)
    {
      OtherExecGrows(reg, s, w, s'.db, f);
    }
  }

  /** Every execution of `w` is at or before the frontier of `w`. */
  lemma ExecBehind(reg: Registry, s: Sys, w: Id, h: seq<Outcome>, f: nat)
    requires ExecsOk(reg, s) && w in s.db && Complete(BodyOf(reg, s.db[w]), s.db[w].ops, h)
    requires f in s.execs && s.execs[f].wf == w
    ensures s.execs[f].hist <= h
    ensures Pos(BodyOf(reg, s.db[w]), s.execs[f].hist) <= Pos(BodyOf(reg, s.db[w]), h)
  {
    assert GoodExec(reg, s.db, s.execs[f], s.now);
    TraceBehind(BodyOf(reg, s.db[w]), s.db[w].ops, h, s.execs[f].hist);
  }

  lemma LookKeeps(reg: Registry, s: Sys, e: nat)
    requires Inv(reg, s) && Can(reg, s, e) && s.execs[e].phase.Ready? && s.execs[e].counter >= -1
    ensures Inv(reg, SetExec(s, e, AfterLook(Asked(reg, s, e), OpsAt(reg, s, e), s.execs[e], s.now)))
  {
    assert GoodExec(reg, s.db, s.execs[e], s.now) && WorkflowOk(reg, s.db[s.execs[e].wf]);
    var x := s.execs[e];
    var b := BodyOf(reg, s.db[x.wf]);
    var h :| Frontier(b, s.db[x.wf], h);
    LookOk(b, s.db[x.wf], h, x, s.now);
    InvSetExec(reg, s, e, AfterLook(b(x.hist), s.db[x.wf].ops, x, s.now));
  }

  lemma LookDeadlineKeeps(reg: Registry, s: Sys, e: nat)
    requires Inv(reg, s) && Can(reg, s, e) && s.execs[e].phase.Running? && Slots(Asked(reg, s, e)) == 2
    ensures Inv(reg, SetExec(s, e, AfterLookDeadline(Asked(reg, s, e), OpsAt(reg, s, e), s.execs[e], s.now)))
  {
    assert GoodExec(reg, s.db, s.execs[e], s.now) && WorkflowOk(reg, s.db[s.execs[e].wf]);
    var x := s.execs[e];
    var b := BodyOf(reg, s.db[x.wf]);
    var h :| Frontier(b, s.db[x.wf], h);
    LookDeadlineOk(b, s.db[x.wf], h, x, s.now);
    InvSetExec(reg, s, e, AfterLookDeadline(b(x.hist), s.db[x.wf].ops, x, s.now));
  }

  /** Recording a deadline that is not there yet. */
  lemma DeadlineAdds(b: Body, x: Workflow, h: seq<Outcome>, e: Exec, now: int, x': Workflow) returns (h': seq<Outcome>)
    requires Frontier(b, x, h) && ExecOk(b, x.ops, e, now) && e.phase.Recording?
    requires DeadlineSlot(b(e.hist), e.slot) !in x.ops
    requires x' == x.(ops := x.ops[DeadlineSlot(b(e.hist), e.slot) := SleepOp(e.phase.end)])
    ensures Frontier(b, x', h')
    ensures ExecOk(b, x'.ops, e.(phase := Asleep(e.phase.end)), now)
    ensures RowsLate(b, x.ops, x'.ops)
  {
    var a := b(e.hist);
    if a.Sleep? {
      TraceToFrontier(b, x.ops, h, e.hist);
      FrontierCommit(b, x, h, SleepOp(e.phase.end), x');
      h' := h + [Unit];
    } else {
      FrontierDeadline(b, x, h, e.hist, e.phase.end, x');
      h' := h;
    }
    ExecGrown(b, x.ops, x'.ops, e, now, now);
  }

  /** A deadline that lost the race is read back. */
  lemma DeadlineThere(b: Body, x: Workflow, h: seq<Outcome>, e: Exec, now: int)
    requires Frontier(b, x, h) && ExecOk(b, x.ops, e, now) && e.phase.Recording?
    requires DeadlineSlot(b(e.hist), e.slot) in x.ops
    ensures IsSleepOp(x.ops[DeadlineSlot(b(e.hist), e.slot)])
  {
    if b(e.hist).Sleep? {
      RowIsExpected(b, x.ops, h, e.hist);
    } else {
      DeadlineIsSleep(b, x.ops, h, e.hist, e.slot + 1);
    }
  }

  lemma DeadlineWorkflow(reg: Registry, x: Workflow, e: Exec, now: int, x': Workflow)
    requires WorkflowOk(reg, x) && ExecOk(BodyOf(reg, x), x.ops, e, now) && e.phase.Recording?
    requires var d := DeadlineSlot(BodyOf(reg, x)(e.hist), e.slot);
      d !in x.ops && x' == x.(ops := x.ops[d := SleepOp(e.phase.end)])
    ensures WorkflowOk(reg, x') && Grown(x.ops, x'.ops) && RowsLate(BodyOf(reg, x), x.ops, x'.ops)
    ensures ExecOk(BodyOf(reg, x), x'.ops, e.(phase := Asleep(e.phase.end)), now)
  {
    var h :| Frontier(BodyOf(reg, x), x, h);
    var h' := DeadlineAdds(BodyOf(reg, x), x, h, e, now, x');
    assert Frontier(BodyOf(reg, x'), x', h');
  }

  lemma PutElsewhere(db: Db, w: Id, x: Workflow)
    requires w in db && x.row == db[w].row
    ensures Elsewhere(db, db[w := x], w)
  {
  }

  lemma DeadlineKeeps(reg: Registry, s: Sys, e: nat, s': Sys)
    requires Inv(reg, s) && Can(reg, s, e) && s.execs[e].phase.Recording?
    requires RecordsDeadline(s, Asked(reg, s, e), e, s')
    ensures Inv(reg, s') && Advances(reg, s.db, s'.db)
  {
    assert GoodExec(reg, s.db, s.execs[e], s.now) && WorkflowOk(reg, s.db[s.execs[e].wf]);
    var x := s.execs[e];
    var w := x.wf;
    var d := DeadlineSlot(Asked(reg, s, e), x.slot);
    if d in s.db[w].ops {
      var h :| Frontier(BodyOf(reg, s.db[w]), s.db[w], h);
      DeadlineThere(BodyOf(reg, s.db[w]), s.db[w], h, x, s.now);
      InvSetExec(reg, s, e, x.(phase := Asleep(DeadlineOf(s.db[w].ops[d]))));
    } else {
      var y := x.(phase := Asleep(x.phase.end));
      var z := s.db[w].(ops := s.db[w].ops[d := SleepOp(x.phase.end)]);
      assert s'.db == s.db[w := z] && s'.execs == s.execs[e := y];
      DeadlineWorkflow(reg, s.db[w], x, s.now, z);
      PutElsewhere(s.db, w, z);
      InvGrow(reg, s, w, e, y, s');
    }
  }

  /** A committed operation. */
  lemma CommitAdds(b: Body, x: Workflow, h: seq<Outcome>, e: Exec, op: Op, now: int, x': Workflow)
    requires Frontier(b, x, h) && ExecOk(b, x.ops, e, now) && CommitPhase(b(e.hist), e.phase)
    requires e.slot !in x.ops && x'.ops == x.ops[e.slot := op]
    requires OutputsOf(x') == Effect(OutputsOf(x), b(e.hist), e.slot)
    requires op.name == ActionName(b(e.hist)) && (b(e.hist).Child? ==> op.child.Some?)
    requires WritesStream(b(e.hist)) ==> !StreamClosed(x.streams, b(e.hist).key)
    ensures Frontier(b, x', h + [Decode(b(e.hist), op)])
    ensures ExecOk(b, x'.ops, AfterTx(e, Ok(Decode(b(e.hist), op))), now)
    ensures RowsLate(b, x.ops, x'.ops)
  {
    var a := b(e.hist);
    TraceToFrontier(b, x.ops, h, e.hist);
    if Slots(a) == 2 && e.slot + 1 in x.ops {
      DeadlineIsSleep(b, x.ops, h, e.hist, e.slot + 1);
    }
    FrontierCommit(b, x, h, op, x');
    ExecGrown(b, x.ops, x'.ops, e, now, now);
    ExecAdvance(b, x'.ops, e, Decode(a, op), now, AfterTx(e, Ok(Decode(a, op))));
    forall g | Trace(b, x.ops, g) ensures Pos(b, g) <= e.slot {
      TraceBehind(b, x.ops, h, g);
    }
  }

  lemma FailedTxKeeps(reg: Registry, s: Sys, e: nat, op: Op, tx: Tx<Outcome>, s': Sys)
    requires Inv(reg, s) && Can(reg, s, e) && tx.result.Err?
    requires Shape(s.db, Asked(reg, s, e), s.execs[e].wf, s.execs[e].slot, op, tx) && NewIdsFree(s, tx.db)
    requires s'.db == tx.db && s'.now == s.now && s'.execs == s.execs[e := AfterTx(s.execs[e], tx.result)]
    ensures Inv(reg, s') && Advances(reg, s.db, s'.db)
  {
    assert GoodExec(reg, s.db, s.execs[e], s.now) && WorkflowOk(reg, s.db[s.execs[e].wf]);
    var w := s.execs[e].wf;
    SameWorkflowOk(reg, s.db[w], s'.db[w]);
    InvGrow(reg, s, w, e, AfterTx(s.execs[e], tx.result), s');
  }

  lemma CommitWorkflow(reg: Registry, x: Workflow, e: Exec, op: Op, now: int, x': Workflow)
    requires WorkflowOk(reg, x) && ExecOk(BodyOf(reg, x), x.ops, e, now)
    requires CommitPhase(BodyOf(reg, x)(e.hist), e.phase)
    requires e.slot !in x.ops && x'.ops == x.ops[e.slot := op]
    requires SameIdentity(x.row, x'.row)
    requires var a := BodyOf(reg, x)(e.hist);
      && OutputsOf(x') == Effect(OutputsOf(x), a, e.slot)
      && op.name == ActionName(a) && (a.Child? ==> op.child.Some?)
      && (WritesStream(a) ==> !StreamClosed(x.streams, a.key))
    ensures WorkflowOk(reg, x') && Grown(x.ops, x'.ops) && RowsLate(BodyOf(reg, x), x.ops, x'.ops)
    ensures ExecOk(BodyOf(reg, x), x'.ops, AfterTx(e, Ok(Decode(BodyOf(reg, x)(e.hist), op))), now)
  {
    var b := BodyOf(reg, x);
    var h :| Frontier(b, x, h);
    CommitAdds(b, x, h, e, op, now, x');
    assert Frontier(BodyOf(reg, x'), x', h + [Decode(b(e.hist), op)]);
  }

  lemma TxKeeps(reg: Registry, s: Sys, e: nat, op: Op, tx: Tx<Outcome>, s': Sys)
    requires Inv(reg, s) && Can(reg, s, e) && CommitPhase(Asked(reg, s, e), s.execs[e].phase) && tx.result.Ok?
    requires Shape(s.db, Asked(reg, s, e), s.execs[e].wf, s.execs[e].slot, op, tx) && NewIdsFree(s, tx.db)
    requires s'.db == tx.db && s'.now == s.now && s'.execs == s.execs[e := AfterTx(s.execs[e], tx.result)]
    ensures Inv(reg, s') && Advances(reg, s.db, s'.db)
  {
    assert GoodExec(reg, s.db, s.execs[e], s.now) && WorkflowOk(reg, s.db[s.execs[e].wf]);
    var x := s.execs[e];
    CommitWorkflow(reg, s.db[x.wf], x, op, s.now, s'.db[x.wf]);
    InvGrow(reg, s, x.wf, e, AfterTx(x, tx.result), s');
  }

  lemma CommitNewIds(s: Sys, a: Action, e: nat, c: Choice)
    requires e in s.execs && CommitPhase(a, s.execs[e].phase) && ValidChoice(s, a, s.execs[e], c)
    ensures NewIdsFree(s, CommitTx(s.db, a, s.execs[e], c, s.now).db)
  {
  }

  lemma CommitKeeps(reg: Registry, s: Sys, e: nat, c: Choice)
    requires Inv(reg, s) && Can(reg, s, e) && CommitPhase(Asked(reg, s, e), s.execs[e].phase)
    requires ValidChoice(s, Asked(reg, s, e), s.execs[e], c)
    ensures Inv(reg, Committed(s, Asked(reg, s, e), e, c))
    ensures Advances(reg, s.db, Committed(s, Asked(reg, s, e), e, c).db)
  {
    var op := CommitShape(s.db, Asked(reg, s, e), s.execs[e], c, s.now);
    var tx := CommitTx(s.db, Asked(reg, s, e), s.execs[e], c, s.now);
    CommitNewIds(s, Asked(reg, s, e), e, c);
    if tx.result.Ok? {
      TxKeeps(reg, s, e, op, tx, Committed(s, Asked(reg, s, e), e, c));
    } else {
      FailedTxKeeps(reg, s, e, op, tx, Committed(s, Asked(reg, s, e), e, c));
    }
  }

  lemma WakeOk(b: Body, ops: map<nat, Op>, e: Exec, now: int)
    requires ExecOk(b, ops, e, now) && e.phase.Asleep? && e.phase.deadline <= now && b(e.hist).Sleep?
    ensures ExecOk(b, ops, AfterTx(e, Ok(Unit)), now)
  {
    ExecAdvance(b, ops, e, Unit, now, AfterTx(e, Ok(Unit)));
  }

  lemma WakeKeeps(reg: Registry, s: Sys, e: nat)
    requires Inv(reg, s) && Can(reg, s, e) && s.execs[e].phase.Asleep? && s.execs[e].phase.deadline <= s.now
    requires Asked(reg, s, e).Sleep?
    ensures Inv(reg, SetExec(s, e, AfterTx(s.execs[e], Ok(Unit))))
  {
    assert GoodExec(reg, s.db, s.execs[e], s.now) && WorkflowOk(reg, s.db[s.execs[e].wf]);
    var x := s.execs[e];
    WakeOk(BodyOf(reg, s.db[x.wf]), s.db[x.wf].ops, x, s.now);
    InvSetExec(reg, s, e, AfterTx(x, Ok(Unit)));
  }

  lemma PollOk(b: Body, db: Db, e: Exec, now: int)
    requires e.wf in db && ExecOk(b, db[e.wf].ops, e, now) && e.phase.Asleep?
    ensures ExecOk(b, db[e.wf].ops, AfterPoll(b(e.hist), db, e, now), now)
  {
  }

  lemma PollKeeps(reg: Registry, s: Sys, e: nat)
    requires Inv(reg, s) && Can(reg, s, e) && s.execs[e].phase.Asleep?
    ensures Inv(reg, SetExec(s, e, AfterPoll(Asked(reg, s, e), s.db, s.execs[e], s.now)))
  {
    assert GoodExec(reg, s.db, s.execs[e], s.now) && WorkflowOk(reg, s.db[s.execs[e].wf]);
    PollOk(BodyOf(reg, s.db[s.execs[e].wf]), s.db, s.execs[e], s.now);
    InvSetExec(reg, s, e, AfterPoll(Asked(reg, s, e), s.db, s.execs[e], s.now));
  }

  lemma ForkOk(reg: Registry, x: Workflow, h: seq<Outcome>, input: ForkInput)
    requires Frontier(BodyOf(reg, x), x, h)
    ensures WorkflowOk(reg, ForkWorkflow(x, input))
  {
    var y := ForkWorkflow(x, input);
    assert y.row == ForkRow(x.row, input);
    ForkIsPrefixState(BodyOf(reg, x), x, h, input);
    assert Frontier(BodyOf(reg, y), y, ForkHistory(BodyOf(reg, x), h, input.start));
  }

  lemma NewOk(reg: Registry, db: Db, x: Workflow)
    requires (forall w {:trigger WorkflowOk(reg, db[w])} :: w in db ==> WorkflowOk(reg, db[w])) && IsNew(db, x)
    ensures WorkflowOk(reg, x)
  {
    if x == Unstarted(x.row) {
      UnstartedOk(reg, x.row);
    } else {
      var w, input :| w in db && x == ForkWorkflow(db[w], input);
      assert WorkflowOk(reg, db[w]);
      var h :| Frontier(BodyOf(reg, db[w]), db[w], h);
      ForkOk(reg, db[w], h, input);
    }
  }

  /** Row transactions, deletions and forks included. */
  lemma RowsKeep(reg: Registry, s: Sys, s': Sys)
    requires Inv(reg, s) && TablesFrame(s.db, s'.db, Live(s)) && s'.execs == s.execs && s'.now == s.now
    ensures Inv(reg, s') && Advances(reg, s.db, s'.db)
  {
    forall w | w in s'.db ensures WorkflowOk(reg, s'.db[w]) {
      if w in s.db {
        assert WorkflowOk(reg, s.db[w]);
        SameWorkflowOk(reg, s.db[w], s'.db[w]);
      } else {
        NewOk(reg, s.db, s'.db[w]);
      }
    }
    forall e | e in s.execs
      ensures GoodExec(reg, s'.db, s.execs[e], s'.now)
    {
      assert GoodExec(reg, s.db, s.execs[e], s.now) && s.execs[e].wf in Live(s);
    }
  }

  lemma TickKeeps(reg: Registry, s: Sys, now: int)
    requires Inv(reg, s) && s.now <= now
    ensures Inv(reg, s.(now := now))
  {
    forall e | e in s.execs
      ensures GoodExec(reg, s.db, s.execs[e], now)
    {
      var x := s.execs[e];
      assert GoodExec(reg, s.db, x, s.now);
      if x.wf in s.db {
        ExecGrown(BodyOf(reg, s.db[x.wf]), s.db[x.wf].ops, s.db[x.wf].ops, x, s.now, now);
      }
    }
  }

  lemma PostKeeps(reg: Registry, s: Sys, dest: Id, uuid: string, note: Note, s': Sys)
    requires Inv(reg, s) && Next(reg, s, Post(dest, uuid, note), s')
    ensures Inv(reg, s') && Advances(reg, s.db, s'.db)
  {
    RowsKeep(reg, s, s');
  }

  lemma StartKeeps(reg: Registry, s: Sys, e: nat, wf: Id)
    requires Inv(reg, s) && wf in s.db
    ensures Inv(reg, SetExec(s, e, Exec(wf, -1, 0, [], Ready)))
  {
    InvSetExec(reg, s, e, Exec(wf, -1, 0, [], Ready));
  }

  /** Transitions that leave the database alone. */
  lemma LocalKeeps(reg: Registry, s: Sys, l: Label, s': Sys)
    requires Inv(reg, s) && Next(reg, s, l, s')
    requires l.Start? || l.Crash? || l.Tick? || l.Look? || l.LookDeadline? || l.Wake? || l.Poll?
    ensures Inv(reg, s') && s'.db == s.db
  {
    match l
    case Start(e, wf) => StartKeeps(reg, s, e, wf);
    case Crash(_) =>
    case Tick(now) => TickKeeps(reg, s, now);
    case Look(e) => LookKeeps(reg, s, e);
    case LookDeadline(e) => LookDeadlineKeeps(reg, s, e);
    case Wake(e) => WakeKeeps(reg, s, e);
    case Poll(e) => PollKeeps(reg, s, e);
  }

  lemma NextKeeps(reg: Registry, s: Sys, l: Label, s': Sys)
    requires Inv(reg, s) && Next(reg, s, l, s')
    ensures Inv(reg, s') && Advances(reg, s.db, s'.db)
  {
    match l
    case RecordDeadline(e) => DeadlineKeeps(reg, s, e, s');
    case Commit(e, c) => CommitKeeps(reg, s, e, c);
    case Post(dest, uuid, note) => PostKeeps(reg, s, dest, uuid, note, s');
    case Rows(_) => RowsKeep(reg, s, s');
    case _ => LocalKeeps(reg, s, l, s');
  }

  /** The invariant holds in every state of every run. */
  lemma {:induction false} RunKeeps(reg: Registry, ss: seq<Sys>, ls: seq<Label>, i: nat)
    requires Run(reg, ss, ls) && i < |ss|
    ensures Inv(reg, ss[i])
  {
    if i > 0 {
      RunKeeps(reg, ss, ls, i - 1);
      NextKeeps(reg, ss[i - 1], ls[i - 1], ss[i]);
    }
  }
}
