/**
 What a workflow learns about other workflows is true, first time and on every replay: `get_event` returns a value the
 target's event had, or nothing after the recorded deadline; a child's handle is the child's.
 */
module Observations {
  import opened Wrappers
  import opened Tables
  import opened StatusTable
  import opened Operations
  import opened Histories
  import opened Fork
  import opened ForkProofs
  import opened Replay
  import opened ReplayProofs
  import opened ReplayTheorems
  import opened Mailbox
  import opened Sleeping

  /** In a state of `past` the event had this value. */
  ghost predicate Saw(past: set<Sys>, target: Id, key: Key, ev: Stored) {
    exists t :: t in past && target in t.db && key in t.db[target].events && t.db[target].events[key] == ev
  }

  /** In a state of `past` the deadline was over and the event was not there. */
  ghost predicate Missed(past: set<Sys>, target: Id, key: Key, deadline: int) {
    exists t :: t in past && deadline <= t.now && !(target in t.db && key in t.db[target].events)
  }

  /** The workflow with this id and name is there, unless it was deleted. */
  ghost predicate IsThere(s: Sys, id: Id, name: string) {
    id in s.gone || (id in s.db && name in {"", s.db[id].row.name})
  }

  ghost predicate TellsEvent(past: set<Sys>, target: Id, key: Key, op: Op, ev: Stored) {
    && Saw(past, target, key, ev) && op.output == Some(Text(ev.value))
    && op.format == Some(if ev.format.Some? then ev.format.value else PORTABLE)
  }

  /** A fork may hold the operation without its deadline, when it starts between the two. */
  ghost predicate TellsMissing(past: set<Sys>, target: Id, key: Key, x: Workflow, i: nat, deadline: int) {
    Missed(past, target, key, deadline) && (x.row.forkedFrom == None ==> DeadlineRow(x.ops, i + 1, deadline))
  }

  /** The checkpoint of `a` at step `i` of `x` is true. */
  ghost predicate Tells(s: Sys, past: set<Sys>, x: Workflow, i: nat, a: Action) {
    i in x.ops ==>
      match a
      case GetEvent(target, key, _) =>
        && x.ops[i].error == None
        && (x.ops[i].output.Some? ==> exists ev :: TellsEvent(past, target, key, x.ops[i], ev))
        && (x.ops[i].output == None ==> exists deadline :: TellsMissing(past, target, key, x, i, deadline))
      case Child(name) => x.ops[i].child.Some? ==> IsThere(s, x.ops[i].child.value, name)
      case _ => true
  }

  ghost predicate RowsTell(reg: Registry, s: Sys, past: set<Sys>) {
    forall o, a {:trigger Performed(reg, s.db, o, a)} ::
      Performed(reg, s.db, o, a) ==> Tells(s, past, s.db[o.0], o.1, a)
  }

  /** An execution that stopped waiting for an event. */
  ghost predicate Observes(reg: Registry, s: Sys, e: nat, target: Id, key: Key) {
    && Can(reg, s, e) && s.execs[e].phase.Observing?
    && Asked(reg, s, e).GetEvent? && Asked(reg, s, e).target == target && Asked(reg, s, e).key == key
  }

  ghost predicate SeesTruth(s: Sys, past: set<Sys>, x: Exec, target: Id, key: Key)
    requires x.phase.Observing? && x.wf in s.db
  {
    match x.phase.found
    case Some(ev) => Saw(past, target, key, ev)
    case None =>
      exists deadline :: Missed(past, target, key, deadline) && DeadlineRow(s.db[x.wf].ops, x.slot + 1, deadline)
  }

  ghost predicate ExecsTell(reg: Registry, s: Sys, past: set<Sys>) {
    forall e, target, key {:trigger Observes(reg, s, e, target, key)} ::
      Observes(reg, s, e, target, key) ==> SeesTruth(s, past, s.execs[e], target, key)
  }

  // ---- what stays true ------------------------------------------------------------------------------------

  ghost predicate Later(s: Sys, s': Sys) {
    && s.gone <= s'.gone
    && forall id :: id in s.db ==> id in s'.gone || (id in s'.db && SameIdentity(s.db[id].row, s'.db[id].row))
  }

  lemma PastGrows(past: set<Sys>, past': set<Sys>)
    requires past <= past'
    ensures forall target, key, ev :: Saw(past, target, key, ev) ==> Saw(past', target, key, ev)
    ensures forall target, key, d :: Missed(past, target, key, d) ==> Missed(past', target, key, d)
  {
    forall target, key, ev | Saw(past, target, key, ev) ensures Saw(past', target, key, ev) {
      var t :| t in past && target in t.db && key in t.db[target].events && t.db[target].events[key] == ev;
      assert t in past';
    }
    forall target, key, d | Missed(past, target, key, d) ensures Missed(past', target, key, d) {
      var t :| t in past && d <= t.now && !(target in t.db && key in t.db[target].events);
      assert t in past';
    }
  }

  /** A checkpoint stays true in later states, and in a copy that is a fork. */
  lemma StillTells(s: Sys, past: set<Sys>, x: Workflow, s': Sys, past': set<Sys>, y: Workflow, i: nat, a: Action)
    requires Tells(s, past, x, i, a) && past <= past' && Later(s, s')
    requires i in x.ops && i in y.ops && y.ops[i] == x.ops[i]
    requires y.row.forkedFrom.Some? || (x.row.forkedFrom == None && Grown(x.ops, y.ops))
    ensures Tells(s', past', y, i, a)
  {
    PastGrows(past, past');
    if a.GetEvent? {
      if x.ops[i].output.Some? {
        var ev :| TellsEvent(past, a.target, a.key, x.ops[i], ev);
        assert TellsEvent(past', a.target, a.key, y.ops[i], ev);
      } else {
        var d :| TellsMissing(past, a.target, a.key, x, i, d);
        assert TellsMissing(past', a.target, a.key, y, i, d);
      }
    }
  }

  lemma StillSees(s: Sys, past: set<Sys>, s': Sys, past': set<Sys>, x: Exec, target: Id, key: Key)
    requires x.phase.Observing? && x.wf in s.db && x.wf in s'.db && SeesTruth(s, past, x, target, key)
    requires past <= past' && Grown(s.db[x.wf].ops, s'.db[x.wf].ops)
    ensures SeesTruth(s', past', x, target, key)
  {
    PastGrows(past, past');
    if x.phase.found == None {
      var d :| Missed(past, target, key, d) && DeadlineRow(s.db[x.wf].ops, x.slot + 1, d);
      assert Missed(past', target, key, d) && DeadlineRow(s'.db[x.wf].ops, x.slot + 1, d);
    }
  }

  lemma RowsStillTell(reg: Registry, s: Sys, past: set<Sys>, s': Sys, past': set<Sys>)
    requires Inv(reg, s) && Inv(reg, s') && Advances(reg, s.db, s'.db) && Later(s, s') && RowsTell(reg, s, past)
    requires past <= past'
    requires forall o, a {:trigger Performed(reg, s'.db, o, a)} ::
      Performed(reg, s'.db, o, a) ==> (o.0 in s.db && o.1 in s.db[o.0].ops) || Tells(s', past', s'.db[o.0], o.1, a)
    ensures RowsTell(reg, s', past')
  {
    forall o, a | Performed(reg, s'.db, o, a) ensures Tells(s', past', s'.db[o.0], o.1, a) {
      if o.0 in s.db && o.1 in s.db[o.0].ops {
        PerformedWas(reg, s, s', o, a);
        StillTells(s, past, s.db[o.0], s', past', s'.db[o.0], o.1, a);
      }
    }
  }

  // ---- every transition -----------------------------------------------------------------------------------

  lemma ElsewhereIsLater(s: Sys, s': Sys, w: Id)
    requires Elsewhere(s.db, s'.db, w) && s'.gone == s.gone
    ensures Later(s, s')
  {
  }

  lemma CommitIsLater(reg: Registry, s: Sys, e: nat, c: Choice, s': Sys)
    requires Next(reg, s, Commit(e, c), s')
    ensures Later(s, s')
  {
    var op := CommitShape(s.db, Asked(reg, s, e), s.execs[e], c, s.now);
    ElsewhereIsLater(s, s', s.execs[e].wf);
  }

  lemma NextIsLater(reg: Registry, s: Sys, l: Label, s': Sys)
    requires Inv(reg, s) && Next(reg, s, l, s') && Advances(reg, s.db, s'.db)
    ensures Later(s, s')
  {
    match l
    case Commit(e, c) => CommitIsLater(reg, s, e, c, s');
    case _ =>
  }

  /** A committed `get_event` records what its execution observed. */
  lemma EventTells(s: Sys, past: set<Sys>, x: Exec, a: Action, s': Sys)
    requires a.GetEvent? && x.phase.Observing? && x.wf in s.db && SeesTruth(s, past, x, a.target, a.key)
    requires s'.db == GetEventTx(s.db, x.wf, x.slot, x.phase.found).db
    requires GetEventTx(s.db, x.wf, x.slot, x.phase.found).result.Ok?
    ensures Tells(s', past, s'.db[x.wf], x.slot, a)
  {
    var op := s'.db[x.wf].ops[x.slot];
    match x.phase.found
    case Some(ev) => assert TellsEvent(past, a.target, a.key, op, ev);
    case None =>
      var d :| Missed(past, a.target, a.key, d) && DeadlineRow(s.db[x.wf].ops, x.slot + 1, d);
      assert TellsMissing(past, a.target, a.key, s'.db[x.wf], x.slot, d);
  }

  /** A child's id is recorded when its row is there. */
  lemma ChildTells(s: Sys, past: set<Sys>, x: Exec, a: Action, c: Choice, s': Sys)
    requires a.Child? && x.wf in s.db && c.child.row.name == a.name
    requires s'.db == ChildTx(s.db, x.wf, x.slot, a.name, c.child, c.maxRetries).db
    requires ChildTx(s.db, x.wf, x.slot, a.name, c.child, c.maxRetries).result.Ok?
    ensures x.wf in s'.db && Tells(s', past, s'.db[x.wf], x.slot, a)
  {
    InsertNames(s.db, c.child, c.maxRetries);
  }

  /** An insert that is not refused leaves a row of that name. */
  lemma InsertNames(db: Db, input: InsertInput, maxRetries: int)
    requires InsertStatus(db, input, maxRetries).1.Touched?
    ensures var db' := InsertStatus(db, input, maxRetries).0;
      input.id in db' && input.row.name in {"", db'[input.id].row.name}
  {
  }

  lemma CommitTells(reg: Registry, s: Sys, past: set<Sys>, e: nat, c: Choice, s': Sys)
    requires Inv(reg, s) && ExecsTell(reg, s, past) && Next(reg, s, Commit(e, c), s')
    requires CommitTx(s.db, Asked(reg, s, e), s.execs[e], c, s.now).result.Ok?
    ensures s.execs[e].wf in s'.db && Tells(s', past, s'.db[s.execs[e].wf], s.execs[e].slot, Asked(reg, s, e))
  {
    var a, x := Asked(reg, s, e), s.execs[e];
    var op := CommitShape(s.db, a, x, c, s.now);
    match a
    case GetEvent(target, key, _) =>
      assert Observes(reg, s, e, target, key);
      EventTells(s, past, x, a, s');
    case Child(_) => ChildTells(s, past, x, a, c, s');
    case _ =>
  }

  lemma CommitKeepsTelling(reg: Registry, s: Sys, past: set<Sys>, e: nat, c: Choice, s': Sys, past': set<Sys>)
    requires Inv(reg, s) && Inv(reg, s') && Advances(reg, s.db, s'.db) && Later(s, s')
    requires RowsTell(reg, s, past) && ExecsTell(reg, s, past) && past <= past' && Next(reg, s, Commit(e, c), s')
    ensures RowsTell(reg, s', past')
  {
    var a, x := Asked(reg, s, e), s.execs[e];
    var tx := CommitTx(s.db, a, x, c, s.now);
    var op := CommitShape(s.db, a, x, c, s.now);
    ShapeAddsOnly(s.db, a, x.wf, x.slot, op, tx);
    if tx.result.Ok? {
      CommitPerforms(reg, s, s', e, tx.result.value);
      CommitTells(reg, s, past, e, c, s');
      LaterTells(s', past, past', s'.db[x.wf], x.slot, a);
      forall b | Performed(reg, s'.db, (x.wf, x.slot), b) ensures b == a {
        OneAction(reg, s', (x.wf, x.slot), a, b);
      }
    }
    RowsStillTell(reg, s, past, s', past');
  }

  lemma LaterTells(s: Sys, past: set<Sys>, past': set<Sys>, x: Workflow, i: nat, a: Action)
    requires Tells(s, past, x, i, a) && past <= past'
    ensures Tells(s, past', x, i, a)
  {
    if i in x.ops {
      StillTells(s, past, x, s.(db := s.db), past', x, i, a);
    }
  }

  lemma DeadlineKeepsTelling(reg: Registry, s: Sys, past: set<Sys>, e: nat, s': Sys, past': set<Sys>)
    requires Inv(reg, s) && Inv(reg, s') && Advances(reg, s.db, s'.db) && Later(s, s')
    requires RowsTell(reg, s, past) && past <= past'
    requires Can(reg, s, e) && s.execs[e].phase.Recording? && RecordsDeadline(s, Asked(reg, s, e), e, s')
    ensures RowsTell(reg, s', past')
  {
    var o := (s.execs[e].wf, DeadlineSlot(Asked(reg, s, e), s.execs[e].slot));
    assert AddsOnly(s.db, s'.db, o);
    forall a | Performed(reg, s'.db, o, a) ensures a.Sleep? {
      DeadlineNotPerformed(reg, s, s', e, a);
    }
    RowsStillTell(reg, s, past, s', past');
  }

  lemma ForkTells(
    reg: Registry, s: Sys, past: set<Sys>, w: Id, input: ForkInput, s': Sys, past': set<Sys>, i: nat, a: Action)
    requires Inv(reg, s) && RowsTell(reg, s, past) && past <= past' && Later(s, s') && w in s.db
    requires var y := ForkWorkflow(s.db[w], input); Operation(BodyOf(reg, y), y.ops, i, a)
    ensures Tells(s', past', ForkWorkflow(s.db[w], input), i, a)
  {
    var x, y := s.db[w], ForkWorkflow(s.db[w], input);
    assert WorkflowOk(reg, x);
    assert BodyOf(reg, y) == BodyOf(reg, x);
    ForkPerformed(reg, x, input, i, a);
    assert Performed(reg, s.db, (w, i), a);
    StillTells(s, past, x, s', past', y, i, a);
  }

  lemma RowsKeepTelling(reg: Registry, s: Sys, past: set<Sys>, s': Sys, past': set<Sys>)
    requires Inv(reg, s) && Inv(reg, s') && Advances(reg, s.db, s'.db) && Later(s, s')
    requires RowsTell(reg, s, past) && past <= past' && TablesFrame(s.db, s'.db, Live(s))
    ensures RowsTell(reg, s', past')
  {
    forall o, a | Performed(reg, s'.db, o, a) && !(o.0 in s.db && o.1 in s.db[o.0].ops)
      ensures Tells(s', past', s'.db[o.0], o.1, a)
    {
      var y := s'.db[o.0];
      assert IsNew(s.db, y);
      if y != Unstarted(y.row) {
        var w, input :| w in s.db && y == ForkWorkflow(s.db[w], input);
        ForkTells(reg, s, past, w, input, s', past', o.1, a);
      }
    }
    RowsStillTell(reg, s, past, s', past');
  }

  /** What a turn of the wait sees is in a state of the run. */
  lemma PollTells(reg: Registry, s: Sys, past: set<Sys>, e: nat, s': Sys, past': set<Sys>, target: Id, key: Key)
    requires Inv(reg, s) && s in past && past <= past' && Next(reg, s, Poll(e), s') && Observes(reg, s', e, target, key)
    ensures SeesTruth(s', past', s'.execs[e], target, key)
  {
    var x := s.execs[e];
    assert GoodExec(reg, s.db, x, s.now) && s in past';
    assert Asked(reg, s, e) == Asked(reg, s', e);
    if s'.execs[e].phase.found == None {
      assert Missed(past', target, key, x.phase.deadline) && DeadlineRow(s'.db[x.wf].ops, x.slot + 1, x.phase.deadline);
    }
  }

  /** No other transition makes an execution stop waiting for an event. */
  lemma OnlyPollsObserve(reg: Registry, s: Sys, l: Label, s': Sys, e: nat)
    requires Next(reg, s, l, s') && e in s'.execs && s'.execs[e].phase.Observing? && !(l.Poll? && l.e == e)
    ensures e in s.execs && s.execs[e] == s'.execs[e]
  {
  }

  lemma ExecsStillTell(reg: Registry, s: Sys, past: set<Sys>, l: Label, s': Sys, past': set<Sys>)
    requires Inv(reg, s) && ExecsTell(reg, s, past) && Next(reg, s, l, s') && Advances(reg, s.db, s'.db)
    requires s in past && past <= past'
    ensures ExecsTell(reg, s', past')
  {
    NewIds(reg, s, l, s');
    forall e, target, key | Observes(reg, s', e, target, key) ensures SeesTruth(s', past', s'.execs[e], target, key) {
      if l.Poll? && l.e == e {
        PollTells(reg, s, past, e, s', past', target, key);
      } else {
        OnlyPollsObserve(reg, s, l, s', e);
        assert s.execs[e].wf in Live(s);
        assert Observes(reg, s, e, target, key);
        StillSees(s, past, s', past', s.execs[e], target, key);
      }
    }
  }

  lemma RecordingKeepsTelling(reg: Registry, s: Sys, past: set<Sys>, l: Label, s': Sys, past': set<Sys>)
    requires Inv(reg, s) && Inv(reg, s') && Advances(reg, s.db, s'.db) && Later(s, s')
    requires RowsTell(reg, s, past) && ExecsTell(reg, s, past) && past <= past'
    requires Next(reg, s, l, s') && (l.RecordDeadline? || l.Commit?)
    ensures RowsTell(reg, s', past')
  {
    match l
    case RecordDeadline(e) => DeadlineKeepsTelling(reg, s, past, e, s', past');
    case Commit(e, c) => CommitKeepsTelling(reg, s, past, e, c, s', past');
  }

  lemma OthersKeepTelling(reg: Registry, s: Sys, past: set<Sys>, l: Label, s': Sys, past': set<Sys>)
    requires Inv(reg, s) && Inv(reg, s') && Advances(reg, s.db, s'.db) && Later(s, s')
    requires RowsTell(reg, s, past) && past <= past'
    requires Next(reg, s, l, s') && !l.RecordDeadline? && !l.Commit?
    ensures RowsTell(reg, s', past')
  {
    if l.Rows? {
      RowsKeepTelling(reg, s, past, s', past');
    } else {
      NothingNew(reg, s, l, s');
      RowsStillTell(reg, s, past, s', past');
    }
  }

  lemma NextTells(reg: Registry, s: Sys, past: set<Sys>, l: Label, s': Sys, past': set<Sys>)
    requires Inv(reg, s) && RowsTell(reg, s, past) && ExecsTell(reg, s, past) && Next(reg, s, l, s')
    requires s in past && past <= past'
    ensures RowsTell(reg, s', past') && ExecsTell(reg, s', past')
  {
    AdvancesFrom(reg, s, l, s');
    NextIsLater(reg, s, l, s');
    ExecsStillTell(reg, s, past, l, s', past');
    if l.RecordDeadline? || l.Commit? {
      RecordingKeepsTelling(reg, s, past, l, s', past');
    } else {
      OthersKeepTelling(reg, s, past, l, s', past');
    }
  }

  // ---- every run --------------------------------------------------------------------------------------------

  ghost function States(ss: seq<Sys>, i: nat): set<Sys>
    requires i < |ss|
  {
    set k | 0 <= k <= i :: ss[k]
  }

  lemma {:induction false} RunTells(reg: Registry, ss: seq<Sys>, ls: seq<Label>, i: nat)
    requires Run(reg, ss, ls) && i < |ss|
    ensures RowsTell(reg, ss[i], States(ss, i)) && ExecsTell(reg, ss[i], States(ss, i))
  {
    if i > 0 {
      RunTells(reg, ss, ls, i - 1);
      RunKeeps(reg, ss, ls, i - 1);
      assert ss[i - 1] in States(ss, i - 1);
      NextTells(reg, ss[i - 1], States(ss, i - 1), ls[i - 1], ss[i], States(ss, i));
    }
  }

  /** The execution has passed the operation `a` with its `k`-th outcome. */
  ghost predicate Passed(reg: Registry, s: Sys, e: nat, k: nat, a: Action) {
    Can(reg, s, e) && k < |s.execs[e].hist| && BodyOf(reg, s.db[s.execs[e].wf])(s.execs[e].hist[..k]) == a
  }

  lemma PassedIsTold(reg: Registry, ss: seq<Sys>, ls: seq<Label>, i: nat, e: nat, k: nat, a: Action) returns (n: nat)
    requires Run(reg, ss, ls) && i < |ss| && Passed(reg, ss[i], e, k, a)
    ensures var x, h := ss[i].db[ss[i].execs[e].wf], ss[i].execs[e].hist;
      && n == Pos(BodyOf(reg, x), h[..k]) && n in x.ops && h[k] == Decode(a, x.ops[n])
      && (a.Child? ==> x.ops[n].child.Some?) && Tells(ss[i], States(ss, i), x, n, a)
  {
    RunTells(reg, ss, ls, i);
    RunKeeps(reg, ss, ls, i);
    var s, y := ss[i], ss[i].execs[e];
    var b, x := BodyOf(reg, s.db[y.wf]), s.db[y.wf];
    assert GoodExec(reg, s.db, y, s.now);
    assert At(b, x.ops, y.hist, k);
    n := Pos(b, y.hist[..k]);
    TracePrefix(b, x.ops, y.hist, k);
    assert Reads(b, x.ops, y.hist[..k], n, a);
    assert Performed(reg, s.db, (y.wf, n), a);
  }

  /** In state `j` the target had set the event to `v` last. */
  ghost predicate WasSet(reg: Registry, ss: seq<Sys>, j: nat, target: Id, key: Key, v: string) {
    && j < |ss| && target in ss[j].db
    && exists h :: Complete(BodyOf(reg, ss[j].db[target]), ss[j].db[target].ops, h)
         && LastSet(BodyOf(reg, ss[j].db[target]), h, key) == Some(v)
  }

  /** In state `j` the event was not set, and the deadline that the operation at step `n` of `w` recorded at its second
      step id was over. A fork that starts at that id has no copy of the deadline. */
  ghost predicate WasLate(ss: seq<Sys>, i: nat, j: nat, w: Id, n: nat, target: Id, key: Key, deadline: int) {
    && j <= i < |ss| && w in ss[i].db && deadline <= ss[j].now
    && !(target in ss[j].db && key in ss[j].db[target].events)
    && (ss[i].db[w].row.forkedFrom == None ==> DeadlineRow(ss[i].db[w].ops, n + 1, deadline))
  }

  /**
   What `get_event` returns to any execution, first time or on replay: the value its target had set last in some
   state of the run so far, tagged with the format it was written in; or nothing, if in some state so far the event
   was not set and the recorded deadline was over.
   */
  lemma EventIsTrue(
    reg: Registry, ss: seq<Sys>, ls: seq<Label>, i: nat, e: nat, k: nat, target: Id, key: Key, timeout: nat)
    returns (j: nat, v: string, deadline: int)
    requires Run(reg, ss, ls) && i < |ss| && Passed(reg, ss[i], e, k, GetEvent(target, key, timeout))
    ensures j <= i
    ensures var w, h := ss[i].execs[e].wf, ss[i].execs[e].hist;
      || (h[k] == Value(Some(Text(v)), Some("portable_json")) && WasSet(reg, ss, j, target, key, v))
      || (h[k] == Missing && WasLate(ss, i, j, w, Pos(BodyOf(reg, ss[i].db[w]), h[..k]), target, key, deadline))
  {
    var n := PassedIsTold(reg, ss, ls, i, e, k, GetEvent(target, key, timeout));
    var x, past := ss[i].db[ss[i].execs[e].wf], States(ss, i);
    v, deadline := "", 0;
    if x.ops[n].output.Some? {
      var ev :| TellsEvent(past, target, key, x.ops[n], ev);
      var t :| t in past && target in t.db && key in t.db[target].events && t.db[target].events[key] == ev;
      j :| 0 <= j <= i && ss[j] == t;
      v := ev.value;
      var h := EventReadIsLastSet(reg, ss, ls, j, target, key);
    } else {
      deadline :| TellsMissing(past, target, key, x, n, deadline);
      var t :| t in past && deadline <= t.now && !(target in t.db && key in t.db[target].events);
      j :| 0 <= j <= i && ss[j] == t;
    }
  }

  /** A handle that a workflow got for its child, first time or on replay, is that of a workflow of the child's name
      that is there, unless it was deleted. */
  lemma ChildIsThere(reg: Registry, ss: seq<Sys>, ls: seq<Label>, i: nat, e: nat, k: nat, name: string)
    requires Run(reg, ss, ls) && i < |ss| && Passed(reg, ss[i], e, k, Child(name)) && name != ""
    ensures var o := ss[i].execs[e].hist[k];
      o.Handle? && (o.child in ss[i].gone || (o.child in ss[i].db && ss[i].db[o.child].row.name == name))
  {
    var n := PassedIsTold(reg, ss, ls, i, e, k, Child(name));
  }
}
