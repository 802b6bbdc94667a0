/** What the replay engine promises over whole runs. */
module ReplayTheorems {
  import opened Wrappers
  import opened Tables
  import opened Operations
  import opened Histories
  import opened Fork
  import opened ForkProofs
  import opened Replay
  import opened ReplayProofs

  /** One uninterrupted execution of `b`, fed the outcomes `h`, performs `|h|` operations and returns `r`. */
  ghost predicate CrashFree(b: Body, h: seq<Outcome>, r: Result<string, string>) {
    b(h) == Return(r) && forall k :: 0 <= k < |h| ==> !b(h[..k]).Return?
  }

  /** Workflow `w` exists in every state from `i` to `j`. */
  ghost predicate Lives(ss: seq<Sys>, w: Id, i: nat, j: nat) {
    i <= j < |ss| && forall m :: i <= m <= j ==> w in ss[m].db
  }

  ghost predicate Executing(ss: seq<Sys>, i: nat, e: nat, w: Id) {
    i < |ss| && e in ss[i].execs && ss[i].execs[e].wf == w
  }

  // ---- recorded operations --------------------------------------------------------------------------

  /** A recorded operation row never changes, and what has been read off the log can be read again. */
  lemma {:induction false} RowsNeverChange(
    reg: Registry, ss: seq<Sys>, ls: seq<Label>, w: Id, i: nat, j: nat, h: seq<Outcome>)
    requires Run(reg, ss, ls) && Lives(ss, w, i, j)
    requires Trace(BodyOf(reg, ss[i].db[w]), ss[i].db[w].ops, h)
    ensures BodyOf(reg, ss[j].db[w]) == BodyOf(reg, ss[i].db[w])
    ensures Grown(ss[i].db[w].ops, ss[j].db[w].ops)
    ensures Trace(BodyOf(reg, ss[j].db[w]), ss[j].db[w].ops, h)
    decreases j
  {
    if i < j {
      RowsNeverChange(reg, ss, ls, w, i, j - 1, h);
      RunKeeps(reg, ss, ls, j - 1);
      NextKeeps(reg, ss[j - 1], ls[j - 1], ss[j]);
      TraceGrown(BodyOf(reg, ss[j].db[w]), ss[j - 1].db[w].ops, ss[j].db[w].ops, h);
    }
  }

  /** Every execution, at any later time, sees exactly the recorded outcome at every step it has passed. */
  lemma ReplaySeesRecorded(reg: Registry, ss: seq<Sys>, ls: seq<Label>, w: Id, i: nat, j: nat, e: nat, k: nat)
    requires Run(reg, ss, ls) && Lives(ss, w, i, j) && Executing(ss, i, e, w) && k < |ss[i].execs[e].hist|
    ensures var b, h := BodyOf(reg, ss[j].db[w]), ss[i].execs[e].hist;
      var ops, n := ss[j].db[w].ops, Pos(b, h[..k]);
      n in ops && ops[n].name == ActionName(b(h[..k])) && h[k] == Decode(b(h[..k]), ops[n])
  {
    RunKeeps(reg, ss, ls, i);
    assert GoodExec(reg, ss[i].db, ss[i].execs[e], ss[i].now);
    RowsNeverChange(reg, ss, ls, w, i, j, ss[i].execs[e].hist);
    assert At(BodyOf(reg, ss[j].db[w]), ss[j].db[w].ops, ss[i].execs[e].hist, k);
  }

  /** No execution of a deterministic body is ever told that another step was recorded. */
  lemma NoUnexpectedStep(reg: Registry, ss: seq<Sys>, ls: seq<Label>, i: nat, e: nat)
    requires Run(reg, ss, ls) && i < |ss| && e in ss[i].execs
    ensures ss[i].execs[e].phase != Dead(UnexpectedStep) && ss[i].execs[e].phase != Dead(BadPayload)
  {
    RunKeeps(reg, ss, ls, i);
    assert GoodExec(reg, ss[i].db, ss[i].execs[e], ss[i].now);
  }

  // ---- replay refines crash-free execution ----------------------------------------------------------

  /**
   The tables of every workflow in every reachable state are those one crash-free execution leaves
   after the operations it has recorded; every execution has seen a prefix of these operations.
   */
  lemma TablesAreCrashFree(reg: Registry, ss: seq<Sys>, ls: seq<Label>, i: nat, w: Id) returns (h: seq<Outcome>)
    requires Run(reg, ss, ls) && i < |ss| && w in ss[i].db
    ensures var b, x := BodyOf(reg, ss[i].db[w]), ss[i].db[w];
      && Complete(b, x.ops, h) && OutputsOf(x) == Replayed(b, h)
      && forall e :: e in ss[i].execs && ss[i].execs[e].wf == w ==> ss[i].execs[e].hist <= h
  {
    RunKeeps(reg, ss, ls, i);
    assert WorkflowOk(reg, ss[i].db[w]);
    h :| Frontier(BodyOf(reg, ss[i].db[w]), ss[i].db[w], h);
    forall e | e in ss[i].execs && ss[i].execs[e].wf == w ensures ss[i].execs[e].hist <= h {
      ExecBehind(reg, ss[i], w, h, e);
    }
  }

  lemma ReturnIsLast(b: Body, ops: map<nat, Op>, h: seq<Outcome>, g: seq<Outcome>)
    requires Trace(b, ops, h) && g <= h && b(g).Return?
    ensures g == h
  {
    forall k | 0 <= k < |h| ensures !b(h[..k]).Return? {
      assert At(b, ops, h, k);
    }
    assert h[..|g|] == g;
  }

  /** A finished execution, whatever crashed or ran beside it, returned what one crash-free execution
      fed the recorded outcomes returns. */
  lemma FinishedIsCrashFree(reg: Registry, ss: seq<Sys>, ls: seq<Label>, i: nat, e: nat, w: Id)
    requires Run(reg, ss, ls) && Executing(ss, i, e, w) && ss[i].execs[e].phase.Done? && w in ss[i].db
    ensures var b, x := BodyOf(reg, ss[i].db[w]), ss[i].execs[e];
      && Complete(b, ss[i].db[w].ops, x.hist)
      && OutputsOf(ss[i].db[w]) == Replayed(b, x.hist)
      && CrashFree(b, x.hist, x.phase.result)
  {
    RunKeeps(reg, ss, ls, i);
    assert GoodExec(reg, ss[i].db, ss[i].execs[e], ss[i].now);
    var b, ops, g := BodyOf(reg, ss[i].db[w]), ss[i].db[w].ops, ss[i].execs[e].hist;
    var h := TablesAreCrashFree(reg, ss, ls, i, w);
    ReturnIsLast(b, ops, h, g);
    forall k | 0 <= k < |g| ensures !b(g[..k]).Return? {
      assert At(b, ops, g, k);
    }
  }

  /** Any two executions of one workflow that finish, at any times of a run, return the same result. */
  lemma ResultsAgree(reg: Registry, ss: seq<Sys>, ls: seq<Label>, w: Id, i: nat, j: nat, e: nat, f: nat)
    requires Run(reg, ss, ls) && Lives(ss, w, i, j) && Executing(ss, i, e, w) && Executing(ss, j, f, w)
    requires ss[i].execs[e].phase.Done? && ss[j].execs[f].phase.Done?
    ensures ss[i].execs[e].phase.result == ss[j].execs[f].phase.result
  {
    var g, h := ss[i].execs[e].hist, ss[j].execs[f].hist;
    var b, ops := BodyOf(reg, ss[j].db[w]), ss[j].db[w].ops;
    FinishedIsCrashFree(reg, ss, ls, i, e, w);
    FinishedIsCrashFree(reg, ss, ls, j, f, w);
    RowsNeverChange(reg, ss, ls, w, i, j, g);
    TraceIsPrefix(b, ops, h, g);
    ReturnIsLast(b, ops, h, g);
  }

  // ---- durable sleep --------------------------------------------------------------------------------

  /** No execution gets past a durable sleep before the recorded deadline. */
  lemma SleepIsOver(reg: Registry, ss: seq<Sys>, ls: seq<Label>, w: Id, i: nat, e: nat, k: nat)
    requires Run(reg, ss, ls) && Executing(ss, i, e, w) && w in ss[i].db && k < |ss[i].execs[e].hist|
    requires BodyOf(reg, ss[i].db[w])(ss[i].execs[e].hist[..k]).Sleep?
    ensures var ops, n := ss[i].db[w].ops, Pos(BodyOf(reg, ss[i].db[w]), ss[i].execs[e].hist[..k]);
      n in ops && IsSleepOp(ops[n]) && DeadlineOf(ops[n]) <= ss[i].now
  {
    RunKeeps(reg, ss, ls, i);
    assert GoodExec(reg, ss[i].db, ss[i].execs[e], ss[i].now);
    assert Slept(BodyOf(reg, ss[i].db[w]), ss[i].db[w].ops, ss[i].execs[e].hist, k, ss[i].now);
  }

  /** All executions that wait at one step id, racing or restarted, wait for the one deadline recorded first. */
  lemma OneDeadline(reg: Registry, ss: seq<Sys>, ls: seq<Label>, w: Id, i: nat, j: nat, e: nat, f: nat)
    requires Run(reg, ss, ls) && Lives(ss, w, i, j) && Executing(ss, i, e, w) && Executing(ss, j, f, w)
    requires ss[i].execs[e].phase.Asleep? && ss[j].execs[f].phase.Asleep?
    requires ss[i].execs[e].hist == ss[j].execs[f].hist
    ensures ss[i].execs[e].phase.deadline == ss[j].execs[f].phase.deadline
  {
    RunKeeps(reg, ss, ls, i);
    RunKeeps(reg, ss, ls, j);
    assert GoodExec(reg, ss[i].db, ss[i].execs[e], ss[i].now);
    assert GoodExec(reg, ss[j].db, ss[j].execs[f], ss[j].now);
    RowsNeverChange(reg, ss, ls, w, i, j, ss[i].execs[e].hist);
  }

  /** What `record_sleep` makes an execution wait at time `now`. */
  function Remaining(deadline: int, now: int): nat {
    if deadline <= now then 0 else deadline - now
  }

  lemma {:induction false} ClockAdvances(reg: Registry, ss: seq<Sys>, ls: seq<Label>, i: nat, j: nat)
    requires Run(reg, ss, ls) && i <= j < |ss|
    ensures ss[i].now <= ss[j].now
    decreases j
  {
    if i < j {
      ClockAdvances(reg, ss, ls, i, j - 1);
      assert Next(reg, ss[j - 1], ls[j - 1], ss[j]);
    }
  }

  /** `sleep` returns the time it has left to wait, which is not checkpointed: two executions that sleep at one
      step return the same exactly when no time passed in between or the deadline was over. Bodies therefore
      see `Unit` for a sleep. */
  lemma SleepReturnsAgree(reg: Registry, ss: seq<Sys>, ls: seq<Label>, w: Id, i: nat, j: nat, e: nat, f: nat)
    requires Run(reg, ss, ls) && Lives(ss, w, i, j) && Executing(ss, i, e, w) && Executing(ss, j, f, w)
    requires ss[i].execs[e].phase.Asleep? && ss[j].execs[f].phase.Asleep?
    requires ss[i].execs[e].hist == ss[j].execs[f].hist
    ensures Remaining(ss[i].execs[e].phase.deadline, ss[i].now) == Remaining(ss[j].execs[f].phase.deadline, ss[j].now)
       <==> ss[i].now == ss[j].now || ss[i].execs[e].phase.deadline <= ss[i].now
  {
    OneDeadline(reg, ss, ls, w, i, j, e, f);
    ClockAdvances(reg, ss, ls, i, j);
  }

  // ---- reading events -----------------------------------------------------------------------------------

  /** In every reachable state an event read finds the value its workflow set last. */
  lemma EventReadIsLastSet(
    reg: Registry, ss: seq<Sys>, ls: seq<Label>, i: nat, w: Id, key: Key) returns (h: seq<Outcome>)
    requires Run(reg, ss, ls) && i < |ss| && w in ss[i].db
    ensures Complete(BodyOf(reg, ss[i].db[w]), ss[i].db[w].ops, h)
    ensures SelectEvent(ss[i].db, w, key)
         == match LastSet(BodyOf(reg, ss[i].db[w]), h, key)
            case Some(v) => Some(Stored(v, Some(PORTABLE)))
            case None => None
  {
    h := TablesAreCrashFree(reg, ss, ls, i, w);
    EventIsLastSet(BodyOf(reg, ss[i].db[w]), h, key);
  }

  // ---- forks ------------------------------------------------------------------------------------------

  /**
   A fork taken in any reachable state is a prefix state of its original: it holds exactly the checkpoints
   below the start step, its output tables are those a crash-free execution left when it reached that step,
   and the current value of each key is the one set last before it.
   */
  lemma ForkIsPrefixInRun(reg: Registry, ss: seq<Sys>, ls: seq<Label>, i: nat, w: Id, input: ForkInput)
    returns (h: seq<Outcome>, g: seq<Outcome>)
    requires Run(reg, ss, ls) && i < |ss| && w in ss[i].db && input.start > 0
    ensures var b, x, y := BodyOf(reg, ss[i].db[w]), ss[i].db[w], ForkWorkflow(ss[i].db[w], input);
      && Complete(b, x.ops, h) && OutputsOf(x) == Replayed(b, h)
      && g <= h && Complete(b, y.ops, g) && OutputsOf(y) == Replayed(b, g)
      && (forall k {:trigger h[..k]} :: 0 <= k < |h| ==> (k < |g| <==> Pos(b, h[..k]) < input.start))
      && forall key :: match LastSet(b, g, key)
                       case Some(v) => key in y.events && y.events[key] == Stored(v, Some(PORTABLE))
                       case None => key !in y.events
  {
    h := TablesAreCrashFree(reg, ss, ls, i, w);
    var b, x := BodyOf(reg, ss[i].db[w]), ss[i].db[w];
    RunKeeps(reg, ss, ls, i);
    assert WorkflowOk(reg, x);
    var f :| Frontier(b, x, f);
    CompleteUnique(b, x.ops, f, h);
    g := ForkHistory(b, h, input.start);
    ForkIsPrefixState(b, x, h, input);
    CutIsPrefix(b, h, input.start);
    forall k | 0 <= k < |h| ensures k < |g| <==> Pos(b, h[..k]) < input.start {
      if |g| < k {
        SlotsDisjoint(b, h, |g|, k);
      }
    }
    var events := Replayed(b, g).events;
    forall key ensures match LastSet(b, g, key)
                       case Some(v) => key in events && events[key] == Stored(v, Some(PORTABLE))
                       case None => key !in events
    {
      EventIsLastSet(b, g, key);
    }
  }
}
