/** When the duration that `sleep` returns survives a replay: exactly when nothing was to be waited for. */
module Sleeping {
  import opened Wrappers
  import opened Tables
  import opened Operations
  import opened Histories
  import opened Fork
  import opened ForkProofs
  import opened Replay
  import opened ReplayProofs
  import opened ReplayTheorems
  import opened Mailbox

  // ---- deadlines are no further away than the duration asked for ----------------------------------------------

  ghost predicate IsDue(db: Db, o: (Id, nat), latest: int) {
    o.0 in db && o.1 in db[o.0].ops && IsSleepOp(db[o.0].ops[o.1]) ==> DeadlineOf(db[o.0].ops[o.1]) <= latest
  }

  ghost predicate RowsDue(reg: Registry, s: Sys) {
    forall o, ms {:trigger Performed(reg, s.db, o, Sleep(ms))} ::
      Performed(reg, s.db, o, Sleep(ms)) ==> IsDue(s.db, o, s.now + ms)
  }

  /** An execution about to record the deadline of a sleep. */
  ghost predicate AboutToSleep(reg: Registry, s: Sys, e: nat, ms: nat) {
    Can(reg, s, e) && s.execs[e].phase.Recording? && Asked(reg, s, e) == Sleep(ms)
  }

  ghost predicate ExecsDue(reg: Registry, s: Sys) {
    forall e, ms {:trigger AboutToSleep(reg, s, e, ms)} ::
      AboutToSleep(reg, s, e, ms) ==> s.execs[e].phase.end <= s.now + ms
  }

  /** Rows that were there stay due, whoever else records. */
  lemma RowsStayDue(reg: Registry, s: Sys, s': Sys)
    requires Inv(reg, s) && Inv(reg, s') && Advances(reg, s.db, s'.db) && RowsDue(reg, s) && s.now <= s'.now
    requires forall o, ms {:trigger Performed(reg, s'.db, o, Sleep(ms))} ::
      Performed(reg, s'.db, o, Sleep(ms)) ==> (o.0 in s.db && o.1 in s.db[o.0].ops) || IsDue(s'.db, o, s'.now + ms)
    ensures RowsDue(reg, s')
  {
    forall o, ms | Performed(reg, s'.db, o, Sleep(ms)) ensures IsDue(s'.db, o, s'.now + ms) {
      if o.0 in s.db && o.1 in s.db[o.0].ops {
        PerformedWas(reg, s, s', o, Sleep(ms));
        assert IsDue(s.db, o, s.now + ms);
      }
    }
  }

  /** Executions that were about to record stay so, and new ones counted from now. */
  lemma ExecsStayDue(reg: Registry, s: Sys, s': Sys)
    requires ExecsDue(reg, s) && Advances(reg, s.db, s'.db) && NewIdsFree(s, s'.db) && s.now <= s'.now
    requires forall e :: e in s'.execs && s'.execs[e].phase.Recording? ==>
      (e in s.execs && s.execs[e] == s'.execs[e])
      || (&& s'.execs[e].wf in s'.db
          && forall ms :: Asked(reg, s', e) == Sleep(ms) ==> s'.execs[e].phase.end <= s'.now + ms)
    ensures ExecsDue(reg, s')
  {
    forall e, ms | AboutToSleep(reg, s', e, ms) ensures s'.execs[e].phase.end <= s'.now + ms {
      if e in s.execs && s.execs[e] == s'.execs[e] {
        assert s.execs[e].wf in Live(s);
        assert AboutToSleep(reg, s, e, ms);
      }
    }
  }

  // ---- every transition ---------------------------------------------------------------------------------------

  /** Recording a sleep's deadline. */
  lemma DeadlineKeepsDue(reg: Registry, s: Sys, s': Sys, e: nat)
    requires Inv(reg, s) && Inv(reg, s') && Advances(reg, s.db, s'.db) && RowsDue(reg, s) && ExecsDue(reg, s)
    requires Can(reg, s, e) && s.execs[e].phase.Recording? && RecordsDeadline(s, Asked(reg, s, e), e, s')
    ensures RowsDue(reg, s')
  {
    var o := (s.execs[e].wf, DeadlineSlot(Asked(reg, s, e), s.execs[e].slot));
    assert AddsOnly(s.db, s'.db, o);
    forall ms | Performed(reg, s'.db, o, Sleep(ms)) && !(o.0 in s.db && o.1 in s.db[o.0].ops)
      ensures IsDue(s'.db, o, s'.now + ms)
    {
      DeadlineNotPerformed(reg, s, s', e, Sleep(ms));
      assert AboutToSleep(reg, s, e, ms);
    }
    RowsStayDue(reg, s, s');
  }

  /** No other operation records a sleep. */
  lemma CommitKeepsDue(reg: Registry, s: Sys, s': Sys, e: nat, c: Choice)
    requires Inv(reg, s) && Inv(reg, s') && Advances(reg, s.db, s'.db) && RowsDue(reg, s)
    requires Can(reg, s, e) && CommitPhase(Asked(reg, s, e), s.execs[e].phase)
    requires ValidChoice(s, Asked(reg, s, e), s.execs[e], c) && s' == Committed(s, Asked(reg, s, e), e, c)
    ensures RowsDue(reg, s')
  {
    var a, x := Asked(reg, s, e), s.execs[e];
    var tx := CommitTx(s.db, a, x, c, s.now);
    var op := CommitShape(s.db, a, x, c, s.now);
    ShapeAddsOnly(s.db, a, x.wf, x.slot, op, tx);
    if tx.result.Ok? {
      CommitPerforms(reg, s, s', e, tx.result.value);
      forall ms | Performed(reg, s'.db, (x.wf, x.slot), Sleep(ms)) ensures false {
        OneAction(reg, s', (x.wf, x.slot), a, Sleep(ms));
      }
    }
    RowsStayDue(reg, s, s');
  }

  lemma OneAction(reg: Registry, s: Sys, o: (Id, nat), a: Action, a': Action)
    requires Inv(reg, s) && Performed(reg, s.db, o, a) && Performed(reg, s.db, o, a')
    ensures a == a'
  {
    var x := s.db[o.0];
    assert WorkflowOk(reg, x);
    var h :| Frontier(BodyOf(reg, x), x, h);
    OperationUnique(BodyOf(reg, x), x.ops, h, o.1, a, a');
  }

  /** What a fork has performed, its original has. */
  lemma ForkPerformed(reg: Registry, x: Workflow, input: ForkInput, i: nat, a: Action)
    requires WorkflowOk(reg, x) && Operation(BodyOf(reg, x), ForkWorkflow(x, input).ops, i, a)
    ensures Operation(BodyOf(reg, x), x.ops, i, a) && ForkWorkflow(x, input).ops[i] == x.ops[i]
  {
    var b, y := BodyOf(reg, x), ForkWorkflow(x, input);
    var h :| Frontier(b, x, h);
    ForkIsPrefixState(b, x, h, input);
    var g := ForkHistory(b, h, input.start);
    var f :| Reads(b, y.ops, f, i, a);
    TraceIsPrefix(b, y.ops, g, f);
    TracePrefix(b, x.ops, h, |f|);
    assert f == h[..|f|];
    assert Reads(b, x.ops, f, i, a);
  }

  lemma RowsKeepDue(reg: Registry, s: Sys, s': Sys)
    requires Inv(reg, s) && Inv(reg, s') && Advances(reg, s.db, s'.db) && RowsDue(reg, s)
    requires TablesFrame(s.db, s'.db, Live(s)) && s'.now == s.now
    ensures RowsDue(reg, s')
  {
    forall o, ms | Performed(reg, s'.db, o, Sleep(ms)) && !(o.0 in s.db && o.1 in s.db[o.0].ops)
      ensures IsDue(s'.db, o, s'.now + ms)
    {
      assert IsNew(s.db, s'.db[o.0]);
      NewIsDue(reg, s, s'.db[o.0], o.1, ms);
    }
    RowsStayDue(reg, s, s');
  }

  lemma ForkIsDue(reg: Registry, s: Sys, w: Id, input: ForkInput, i: nat, ms: nat)
    requires Inv(reg, s) && RowsDue(reg, s) && w in s.db
    requires var y := ForkWorkflow(s.db[w], input); Operation(BodyOf(reg, y), y.ops, i, Sleep(ms))
    ensures var ops := ForkWorkflow(s.db[w], input).ops;
      i in ops && (IsSleepOp(ops[i]) ==> DeadlineOf(ops[i]) <= s.now + ms)
  {
    assert WorkflowOk(reg, s.db[w]);
    assert BodyOf(reg, ForkWorkflow(s.db[w], input)) == BodyOf(reg, s.db[w]);
    ForkPerformed(reg, s.db[w], input, i, Sleep(ms));
    assert Performed(reg, s.db, (w, i), Sleep(ms));
    assert IsDue(s.db, (w, i), s.now + ms);
  }

  lemma NewIsDue(reg: Registry, s: Sys, y: Workflow, i: nat, ms: nat)
    requires Inv(reg, s) && RowsDue(reg, s) && IsNew(s.db, y) && Operation(BodyOf(reg, y), y.ops, i, Sleep(ms))
    ensures i in y.ops && (IsSleepOp(y.ops[i]) ==> DeadlineOf(y.ops[i]) <= s.now + ms)
  {
    if y != Unstarted(y.row) {
      var w, input :| w in s.db && y == ForkWorkflow(s.db[w], input);
      ForkIsDue(reg, s, w, input, i, ms);
    }
  }

  /** An execution records a deadline counted from when it looked. */
  lemma LookIsDue(reg: Registry, s: Sys, l: Label, s': Sys, e: nat)
    requires Inv(reg, s) && Next(reg, s, l, s') && e in s'.execs && s'.execs[e].phase.Recording?
    requires !(e in s.execs && s.execs[e] == s'.execs[e])
    ensures s'.execs[e].wf in s'.db
    ensures forall ms :: Asked(reg, s', e) == Sleep(ms) ==> s'.execs[e].phase.end <= s'.now + ms
  {
    if l.LookDeadline? && l.e == e {
      assert Slots(Asked(reg, s, e)) == 2;
    }
  }

  lemma NewIds(reg: Registry, s: Sys, l: Label, s': Sys)
    requires Next(reg, s, l, s')
    ensures NewIdsFree(s, s'.db)
  {
    match l
    case Commit(e, c) => CommitNewIds(s, Asked(reg, s, e), e, c);
    case _ =>
  }

  lemma NextKeepsExecsDue(reg: Registry, s: Sys, l: Label, s': Sys)
    requires Inv(reg, s) && ExecsDue(reg, s) && Next(reg, s, l, s') && Advances(reg, s.db, s'.db)
    ensures ExecsDue(reg, s')
  {
    NewIds(reg, s, l, s');
    forall e | e in s'.execs && s'.execs[e].phase.Recording? && !(e in s.execs && s.execs[e] == s'.execs[e])
      ensures s'.execs[e].wf in s'.db
      ensures forall ms :: Asked(reg, s', e) == Sleep(ms) ==> s'.execs[e].phase.end <= s'.now + ms
    {
      LookIsDue(reg, s, l, s', e);
    }
    ExecsStayDue(reg, s, s');
  }

  lemma RecordingKeepsDue(reg: Registry, s: Sys, l: Label, s': Sys)
    requires Inv(reg, s) && Inv(reg, s') && Advances(reg, s.db, s'.db) && RowsDue(reg, s) && ExecsDue(reg, s)
    requires Next(reg, s, l, s') && (l.RecordDeadline? || l.Commit?)
    ensures RowsDue(reg, s')
  {
    match l
    case RecordDeadline(e) => DeadlineKeepsDue(reg, s, s', e);
    case Commit(e, c) => CommitKeepsDue(reg, s, s', e, c);
  }

  lemma OthersKeepDue(reg: Registry, s: Sys, l: Label, s': Sys)
    requires Inv(reg, s) && Inv(reg, s') && Advances(reg, s.db, s'.db) && RowsDue(reg, s)
    requires Next(reg, s, l, s') && !l.RecordDeadline? && !l.Commit?
    ensures RowsDue(reg, s')
  {
    if l.Rows? {
      RowsKeepDue(reg, s, s');
    } else {
      NothingNew(reg, s, l, s');
      RowsStayDue(reg, s, s');
    }
  }

  /** The other transitions add no checkpoint. */
  lemma NothingNew(reg: Registry, s: Sys, l: Label, s': Sys)
    requires Next(reg, s, l, s') && !l.RecordDeadline? && !l.Commit? && !l.Rows?
    ensures s.now <= s'.now && forall w :: w in s'.db ==> w in s.db && s'.db[w].ops == s.db[w].ops
  {
  }

  lemma NextKeepsDue(reg: Registry, s: Sys, l: Label, s': Sys)
    requires Inv(reg, s) && RowsDue(reg, s) && ExecsDue(reg, s) && Next(reg, s, l, s')
    ensures RowsDue(reg, s') && ExecsDue(reg, s')
  {
    AdvancesFrom(reg, s, l, s');
    NextKeepsExecsDue(reg, s, l, s');
    if l.RecordDeadline? || l.Commit? {
      RecordingKeepsDue(reg, s, l, s');
    } else {
      OthersKeepDue(reg, s, l, s');
    }
  }

  lemma {:induction false} RunDue(reg: Registry, ss: seq<Sys>, ls: seq<Label>, i: nat)
    requires Run(reg, ss, ls) && i < |ss|
    ensures RowsDue(reg, ss[i]) && ExecsDue(reg, ss[i])
  {
    if i > 0 {
      RunDue(reg, ss, ls, i - 1);
      RunKeeps(reg, ss, ls, i - 1);
      NextKeepsDue(reg, ss[i - 1], ls[i - 1], ss[i]);
    }
  }

  // ---- the returned duration ------------------------------------------------------------------------------------

  /** Execution `e` sleeps for `ms` in state `i`. */
  ghost predicate Sleeps(reg: Registry, ss: seq<Sys>, i: nat, e: nat, w: Id, ms: nat) {
    && Executing(ss, i, e, w) && w in ss[i].db && ss[i].execs[e].phase.Asleep?
    && BodyOf(reg, ss[i].db[w])(ss[i].execs[e].hist) == Sleep(ms)
  }

  /** What `sleep` returns to it. */
  ghost function Returned(ss: seq<Sys>, i: nat, e: nat): nat
    requires i < |ss| && e in ss[i].execs && ss[i].execs[e].phase.Asleep?
  {
    Remaining(ss[i].execs[e].phase.deadline, ss[i].now)
  }

  /** A sleep is over no later than the duration asked for. */
  lemma WaitsAtMost(reg: Registry, ss: seq<Sys>, ls: seq<Label>, i: nat, e: nat, w: Id, ms: nat)
    requires Run(reg, ss, ls) && Sleeps(reg, ss, i, e, w, ms)
    ensures Returned(ss, i, e) <= ms
  {
    RunDue(reg, ss, ls, i);
    RunKeeps(reg, ss, ls, i);
    var s, x := ss[i], ss[i].execs[e];
    assert GoodExec(reg, s.db, x, s.now);
    assert Reads(BodyOf(reg, s.db[w]), s.db[w].ops, x.hist, x.slot, Sleep(ms));
    assert Performed(reg, s.db, (w, x.slot), Sleep(ms));
    assert IsDue(s.db, (w, x.slot), s.now + ms);
  }

  /** Two executions of one workflow at one sleep. */
  ghost predicate SleepTwice(
    reg: Registry, ss: seq<Sys>, ls: seq<Label>, w: Id, i: nat, j: nat, e: nat, f: nat, ms: nat)
  {
    && Run(reg, ss, ls) && Lives(ss, w, i, j) && Sleeps(reg, ss, i, e, w, ms) && Sleeps(reg, ss, j, f, w, ms)
    && ss[i].execs[e].hist == ss[j].execs[f].hist
  }

  /** In every run, every execution of a sleep for `ms` is returned the same duration. */
  ghost predicate AlwaysSame(ms: nat) {
    forall reg, ss, ls, w, i, j, e, f {:trigger SleepTwice(reg, ss, ls, w, i, j, e, f, ms)} ::
      SleepTwice(reg, ss, ls, w, i, j, e, f, ms) ==> Returned(ss, i, e) == Returned(ss, j, f)
  }

  // ---- a sleep whose replay returns less ----------------------------------------------------------------------

  /** The workflow that sleeps once and returns. */
  function Sleeper(ms: nat): Body {
    (h: seq<Outcome>) => if h == [] then Sleep(ms) else Return(Ok(""))
  }

  function OnlySleeper(ms: nat): Registry {
    (name, inputs) => Sleeper(ms)
  }

  const ROW := Row(Pending, "f", None, None, None, None, None, 1, 0, 0, None, None, None, None, None, 0,
                   None, None, None, None, false, None, false)

  function Nothing(): Sys {
    Sys(map[], map[], 0, {}, map[], map[], map[], {})
  }

  function SleptDb(ms: nat): Db {
    map["w" := Unstarted(ROW).(ops := map[0 := SleepOp(ms)])]
  }

  function Beginning(): Exec {
    Exec("w", -1, 0, [], Ready)
  }

  function Resting(ms: nat): Exec {
    Exec("w", 0, 0, [], Asleep(ms))
  }

  lemma ArriveSteps(ms: nat, s1: Sys, s2: Sys)
    requires s1 == Nothing().(db := map["w" := Unstarted(ROW)]) && s2 == s1.(execs := map[1 := Beginning()])
    ensures Next(OnlySleeper(ms), Nothing(), Rows(s1.db), s1) && Next(OnlySleeper(ms), s1, Start(1, "w"), s2)
  {
    assert s1 == Surviving(Nothing(), s1.db);
  }

  lemma RecordSteps(ms: nat, s2: Sys, s3: Sys, s4: Sys)
    requires s2 == Nothing().(db := map["w" := Unstarted(ROW)], execs := map[1 := Beginning()])
    requires s3 == s2.(execs := map[1 := Exec("w", 0, 0, [], Recording(ms))])
    requires s4 == s2.(db := SleptDb(ms), execs := map[1 := Resting(ms)])
    ensures Next(OnlySleeper(ms), s2, Look(1), s3) && Next(OnlySleeper(ms), s3, RecordDeadline(1), s4)
  {
    assert Asked(OnlySleeper(ms), s2, 1) == Sleep(ms) && Asked(OnlySleeper(ms), s3, 1) == Sleep(ms);
  }

  lemma ReplaySteps(ms: nat, s4: Sys, s5: Sys, s6: Sys, s7: Sys, s8: Sys)
    requires s4 == Nothing().(db := SleptDb(ms), execs := map[1 := Resting(ms)])
    requires s5 == s4.(now := 1) && s6 == s5.(execs := map[]) && s7 == s5.(execs := map[2 := Beginning()])
    requires s8 == s5.(execs := map[2 := Resting(ms)])
    ensures var reg := OnlySleeper(ms);
      && Next(reg, s4, Tick(1), s5) && Next(reg, s5, Crash(1), s6)
      && Next(reg, s6, Start(2, "w"), s7) && Next(reg, s7, Look(2), s8)
  {
    assert Asked(OnlySleeper(ms), s7, 2) == Sleep(ms);
  }

  /** The states after the deadline is recorded: the first execution rests, and then the second. */
  ghost predicate RestsTwice(ms: nat, ss: seq<Sys>) {
    && |ss| == 9 && (forall i :: 4 <= i < 9 ==> ss[i].db == SleptDb(ms)) && ss[4].now == 0 && ss[8].now == 1
    && 1 in ss[4].execs && ss[4].execs[1] == Resting(ms) && 2 in ss[8].execs && ss[8].execs[2] == Resting(ms)
  }

  lemma RunOn(reg: Registry, ss: seq<Sys>, ls: seq<Label>, s: Sys, l: Label, s': Sys)
    requires Run(reg, ss, ls) && s == ss[|ls|] && Next(reg, s, l, s')
    ensures Run(reg, ss + [s'], ls + [l]) && (ss + [s'])[|ls| + 1] == s'
  {
    var ss', ls' := ss + [s'], ls + [l];
    forall i | 0 <= i < |ls'| ensures Next(reg, ss'[i], ls'[i], ss'[i + 1]) {
      if i < |ls| {
        assert Next(reg, ss[i], ls[i], ss[i + 1]);
      }
    }
  }

  lemma RunOnTwice(reg: Registry, ss: seq<Sys>, ls: seq<Label>, s: Sys, l: Label, s1: Sys, m: Label, s2: Sys)
    returns (ss': seq<Sys>, ls': seq<Label>)
    requires Run(reg, ss, ls) && s == ss[|ls|] && Next(reg, s, l, s1) && Next(reg, s1, m, s2)
    ensures Run(reg, ss', ls') && ss' == ss + [s1, s2] && ls' == ls + [l, m]
  {
    RunOn(reg, ss, ls, s, l, s1);
    RunOn(reg, ss + [s1], ls + [l], s1, m, s2);
    ss', ls' := ss + [s1] + [s2], ls + [l] + [m];
  }

  /** The deadline is recorded, and the first execution rests. */
  function Recorded1(ms: nat): Sys {
    Nothing().(db := SleptDb(ms), execs := map[1 := Resting(ms)])
  }

  lemma FirstHalf(ms: nat) returns (ss: seq<Sys>, ls: seq<Label>)
    ensures Run(OnlySleeper(ms), ss, ls) && |ls| == 4 && ss[4] == Recorded1(ms)
  {
    var reg := OnlySleeper(ms);
    var s1 := Nothing().(db := map["w" := Unstarted(ROW)]);
    var s2, s3 := s1.(execs := map[1 := Beginning()]), s1.(execs := map[1 := Exec("w", 0, 0, [], Recording(ms))]);
    ArriveSteps(ms, s1, s2);
    RecordSteps(ms, s2, s3, Recorded1(ms));
    ss, ls := [Nothing()], [];
    ss, ls := RunOnTwice(reg, ss, ls, Nothing(), Rows(s1.db), s1, Start(1, "w"), s2);
    ss, ls := RunOnTwice(reg, ss, ls, s2, Look(1), s3, RecordDeadline(1), Recorded1(ms));
  }

  lemma SleepRun(ms: nat) returns (ss: seq<Sys>, ls: seq<Label>)
    ensures Run(OnlySleeper(ms), ss, ls) && RestsTwice(ms, ss)
  {
    var reg := OnlySleeper(ms);
    var s4 := Recorded1(ms);
    var s5 := s4.(now := 1);
    var s6, s7, s8 := s5.(execs := map[]), s5.(execs := map[2 := Beginning()]), s5.(execs := map[2 := Resting(ms)]);
    ReplaySteps(ms, s4, s5, s6, s7, s8);
    ss, ls := FirstHalf(ms);
    ss, ls := RunOnTwice(reg, ss, ls, s4, Tick(1), s5, Crash(1), s6);
    ss, ls := RunOnTwice(reg, ss, ls, s6, Start(2, "w"), s7, Look(2), s8);
  }

  /** A sleep of any length is recorded, a millisecond passes, the process crashes, and the replay returns one
      millisecond less. */
  lemma SleepReturnDiffers(ms: nat) returns (reg: Registry, ss: seq<Sys>, ls: seq<Label>)
    requires ms > 0
    ensures SleepTwice(reg, ss, ls, "w", 4, 8, 1, 2, ms)
    ensures Returned(ss, 4, 1) == ms && Returned(ss, 8, 2) == ms - 1
  {
    reg := OnlySleeper(ms);
    ss, ls := SleepRun(ms);
    BothRest(ms, ss);
  }

  lemma BothRest(ms: nat, ss: seq<Sys>)
    requires RestsTwice(ms, ss)
    ensures var reg := OnlySleeper(ms);
      Lives(ss, "w", 4, 8) && Sleeps(reg, ss, 4, 1, "w", ms) && Sleeps(reg, ss, 8, 2, "w", ms)
  {
  }

  /** `sleep` returns the same duration first time and on every replay exactly when that duration is zero. */
  lemma SleepReturnIsStable(ms: nat)
    ensures AlwaysSame(ms) <==> ms == 0
  {
    if ms == 0 {
      forall reg, ss, ls, w, i, j, e, f | SleepTwice(reg, ss, ls, w, i, j, e, f, ms)
        ensures Returned(ss, i, e) == Returned(ss, j, f)
      {
        WaitsAtMost(reg, ss, ls, i, e, w, ms);
        WaitsAtMost(reg, ss, ls, j, f, w, ms);
      }
    } else {
      var reg, ss, ls := SleepReturnDiffers(ms);
      assert SleepTwice(reg, ss, ls, "w", 4, 8, 1, 2, ms);
    }
  }
}
