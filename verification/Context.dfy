/**
 The handle a workflow body runs on: it owns the step counter, replays what is checkpointed, and commits each
 effect together with its checkpoint. Each method is proved to do one operation's look-up and transaction;
 `OperationIsReplayed` ties the two to the transitions of the replay engine.
 */
module Context {
  import opened Wrappers
  import opened Tables
  import opened StatusTable
  import opened Operations
  import opened Database
  import opened Replay
  import opened ReplayTheorems

  /** A look-up that finds the checkpoint returns it; one that fails ends the call; otherwise `tx` runs. */
  function Memoised(db: Db, w: Id, i: nat, a: Action, tx: Tx<Outcome>): Tx<Outcome> {
    match CheckOperation(db, w, i, ActionName(a))
    case Err(e) => Tx(db, Err(e))
    case Ok(Some(op)) => Tx(db, Ok(Decode(a, op)))
    case Ok(None) => tx
  }

  /** What `record_sleep` leaves and returns: the recorded deadline, or the first to be recorded. */
  function DeadlineLook(db: Db, w: Id, d: nat, end: int): Tx<int> {
    match CheckOperation(db, w, d, SLEEP_NAME)
    case Err(e) => Tx(db, Err(e))
    case Ok(Some(op)) => if IsSleepOp(op) then Tx(db, Ok(DeadlineOf(op))) else Tx(db, Err(BadPayload))
    case Ok(None) => DeadlineTx(db, w, d, end)
  }

  /** What one turn of a waiting loop sees. */
  datatype View = View(db: Db, now: int)

  predicate HasMessage(v: View, w: Id, topic: string) {
    w in v.db && exists u :: u in v.db[w].inbox && Unread(v.db[w].inbox, topic, u)
  }

  /** A stored value in its own format, or in the default one. */
  function InFormat(text: string, format: Option<string>): Outcome {
    Value(Some(Text(text)), if format == None then Some("portable_json") else format)
  }

  /** The picked message of a mailbox, or nothing. */
  function MessageIn(inbox: Inbox, pick: Option<string>): Outcome {
    if pick.Some? && pick.value in inbox then InFormat(inbox[pick.value].message, inbox[pick.value].format) else Missing
  }

  /** The event as its workflow last set it, or nothing. */
  function EventIn(db: Db, target: Id, key: Key): Outcome {
    if target in db && key in db[target].events
    then InFormat(db[target].events[key].value, db[target].events[key].format) else Missing
  }

  /** The checkpoint of an operation that returns nothing. */
  predicate HasUnitRow(db: Db, w: Id, i: nat, name: string) {
    && w in db && i in db[w].ops
    && db[w].ops[i] == Op(name, Some(Text("null")), None, None, Some("portable_json"))
  }

  /** The child recorded at a step, if any. */
  function RecordedChild(db: Db, w: Id, i: nat): Option<Id> {
    if w in db && i in db[w].ops then db[w].ops[i].child else None
  }

  // ---- retries ------------------------------------------------------------------------------------------------

  function Decimal(n: nat): string {
    if n < 10 then [(n + 48) as char] else Decimal(n / 10) + [(n % 10 + 48) as char]
  }

  function Joined(errors: seq<string>): string {
    if errors == [] then "" else if |errors| == 1 then errors[0] else errors[0] + "\n" + Joined(errors[1..])
  }

  function RetriesExceeded(name: string, maxRetries: nat, errors: seq<string>): string {
    "DBOS Error 13: Step " + name + " has exceeded its maximum of " + Decimal(maxRetries) + " retries: "
    + Joined(errors)
  }

  /** The texts of the first `n` attempts, all of which failed. */
  ghost predicate AllFail(attempt: nat -> Outcome, n: nat) {
    forall k :: 0 <= k < n ==> attempt(k).Failed?
  }

  function Texts(attempt: nat -> Outcome, n: nat): seq<string>
    requires AllFail(attempt, n)
  {
    seq(n, k requires 0 <= k < n => assert attempt(k).Failed?; attempt(k).text)
  }

  /** The first attempt below `n` that succeeds, or `n`. */
  function FirstSuccess(attempt: nat -> Outcome, n: nat): (k: nat)
    ensures k <= n && AllFail(attempt, k) && (k < n ==> !attempt(k).Failed?)
  {
    if n == 0 then 0
    else
      var k := FirstSuccess(attempt, n - 1);
      if k == n - 1 && attempt(n - 1).Failed? then n else k
  }

  /** At most `maxRetries + 1` attempts: the first success, else the one error, or all of them joined once there
      were retries. */
  function Retried(maxRetries: nat, name: string, attempt: nat -> Outcome): (o: Outcome)
    ensures o.Failed? <==> AllFail(attempt, maxRetries + 1)
    ensures !o.Failed? ==> exists k :: 0 <= k <= maxRetries && AllFail(attempt, k) && o == attempt(k)
  {
    var k := FirstSuccess(attempt, maxRetries + 1);
    if k <= maxRetries then attempt(k)
    else if maxRetries == 0 then attempt(0)
    else Failed(RetriesExceeded(name, maxRetries, Texts(attempt, maxRetries + 1)))
  }

  /** A further failure is reported on a line of its own. */
  lemma {:induction false} ErrorsAreLines(errors: seq<string>, error: string)
    requires errors != []
    ensures Joined(errors + [error]) == Joined(errors) + "\n" + error
  {
    if |errors| == 1 {
      assert (errors + [error])[1..] == [error];
    } else {
      assert (errors + [error])[1..] == errors[1..] + [error];
      ErrorsAreLines(errors[1..], error);
    }
  }

  /** One failed attempt is reported as it is; with retries, how many there were and the text of every attempt. */
  lemma FailuresAreReported(name: string, attempt: nat -> Outcome)
    requires AllFail(attempt, 2)
    ensures attempt(0).Failed? && attempt(1).Failed? && Retried(0, name, attempt) == Failed(attempt(0).text)
    ensures Retried(1, name, attempt)
         == Failed("DBOS Error 13: Step " + name + " has exceeded its maximum of 1 retries: "
                   + attempt(0).text + "\n" + attempt(1).text)
  {
    var errors := Texts(attempt, 2);
    assert errors == [attempt(0).text] + [attempt(1).text];
    ErrorsAreLines([attempt(0).text], attempt(1).text);
  }

  method ExecuteStepWithRetry(maxRetries: nat, name: string, attempt: nat -> Outcome) returns (o: Outcome)
    ensures o == Retried(maxRetries, name, attempt)
  {
    o := attempt(0);
    if !o.Failed? || maxRetries == 0 {
      return;
    }
    var errors := [o.text];
    var retry := 1;
    while retry <= maxRetries
      invariant 1 <= retry <= maxRetries + 1 && AllFail(attempt, retry) && errors == Texts(attempt, retry)
    {
      o := attempt(retry);
      if !o.Failed? {
        return;
      }
      errors := errors + [o.text];
      retry := retry + 1;
    }
    o := Failed(RetriesExceeded(name, maxRetries, errors));
  }

  // ---- the context ----------------------------------------------------------------------------------------------

  class WorkflowContext {
    const db: SystemDatabase
    const workflowId: Id
    const withinStep: bool

    /** The last step id taken, -1 before the first. */
    var stepId: int

    constructor (db: SystemDatabase, workflowId: Id, withinStep: bool)
      ensures this.db == db && this.workflowId == workflowId && this.withinStep == withinStep && stepId == -1
    {
      this.db, this.workflowId, this.withinStep, this.stepId := db, workflowId, withinStep, -1;
    }

    ghost predicate Valid()
      reads this
    {
      stepId >= -1
    }

    method NextStepId() returns (i: nat)
      requires Valid()
      modifies this
      ensures Valid() && i == stepId == old(stepId) + 1
    {
      stepId := stepId + 1;
      i := stepId;
    }

    /** The recorded value or error of a step, if there is one. */
    method ReplayStep(i: nat, name: string) returns (r: Result<Option<Outcome>, DbError>)
      ensures r == match CheckOperation(db.wfs, workflowId, i, name)
                   case Err(e) => Err(e)
                   case Ok(None) => Ok(None)
                   case Ok(Some(op)) => Ok(Some(DecodeStep(op)))
    {
      var rec := db.CheckOperationExecution(workflowId, i, name);
      match rec
      case Err(e) => r := Err(e);
      case Ok(None) => r := Ok(None);
      case Ok(Some(op)) =>
        if op.error.Some? {
          r := Ok(Some(Failed(op.error.value)));
        } else {
          r := Ok(Some(Value(op.output, op.format)));
        }
    }

    method RecordStep(i: nat, name: string, o: Outcome) returns (r: Result<Outcome, DbError>)
      requires IsStepResult(o)
      modifies db
      ensures Tx(db.wfs, r) == StepTx(old(db.wfs), workflowId, i, name, o)
    {
      var rec := db.RecordOperationResult(workflowId, i, StepOp(name, o));
      match rec
      case Ok(_) => r := Ok(o);
      case Err(e) => r := Err(e);
    }

    /** `result` is what the closure returns if it runs; inside another step it runs inline, unrecorded. */
    method RunStep(name: string, result: Outcome) returns (r: Result<Outcome, DbError>, ran: bool)
      requires Valid() && IsStepResult(result)
      modifies this, db
      ensures Valid() && stepId == old(stepId) + (if withinStep then 0 else 1)
      ensures withinStep ==> ran && r == Ok(result) && db.wfs == old(db.wfs)
      ensures !withinStep ==>
        && (ran <==> CheckOperation(old(db.wfs), workflowId, stepId, name) == Ok(None))
        && Tx(db.wfs, r) == Memoised(old(db.wfs), workflowId, stepId, Step(name),
                                     StepTx(old(db.wfs), workflowId, stepId, name, result))
      ensures !withinStep && ran && r.Ok? ==>
        && r.value == result && workflowId in db.wfs && stepId in db.wfs[workflowId].ops
        && var op := db.wfs[workflowId].ops[stepId];
           if result.Failed? then op.error == Some(result.text) && op.output == None
           else op.error == None && op.output == result.data && op.format == result.format
    {
      if withinStep {
        return Ok(result), true;
      }
      var i := NextStepId();
      var replay := ReplayStep(i, name);
      match replay
      case Err(e) => r, ran := Err(e), false;
      case Ok(Some(o)) => r, ran := Ok(o), false;
      case Ok(None) =>
        r := RecordStep(i, name, result);
        ran := true;
    }

    /** `run_step_with`: what is recorded is the outcome of the whole retry loop. */
    method RunStepWith(name: string, maxRetries: nat, attempt: nat -> Outcome) returns (r: Result<Outcome, DbError>)
      requires Valid() && forall k :: IsStepResult(attempt(k))
      modifies this, db
      ensures Valid() && stepId == old(stepId) + (if withinStep then 0 else 1)
      ensures IsStepResult(Retried(maxRetries, name, attempt))
      ensures withinStep ==> r == Ok(attempt(0)) && db.wfs == old(db.wfs)
      ensures !withinStep ==>
        Tx(db.wfs, r) == Memoised(old(db.wfs), workflowId, stepId, Step(name),
                                  StepTx(old(db.wfs), workflowId, stepId, name, Retried(maxRetries, name, attempt)))
    {
      if withinStep {
        return Ok(attempt(0));
      }
      var i := NextStepId();
      var replay := ReplayStep(i, name);
      match replay
      case Err(e) => r := Err(e);
      case Ok(Some(recorded)) => r := Ok(recorded);
      case Ok(None) =>
        var o := ExecuteStepWithRetry(maxRetries, name, attempt);
        r := RecordStep(i, name, o);
    }

    method Send(dest: Id, topic: string, message: string, uuid: string, now: int) returns (r: Result<Outcome, DbError>)
      requires Valid()
      modifies this, db
      ensures Valid()
      ensures withinStep ==> r == Err(InsideStep) && stepId == old(stepId) && db.wfs == old(db.wfs)
      ensures !withinStep ==>
        && stepId == old(stepId) + 1
        && Tx(db.wfs, r) == Memoised(old(db.wfs), workflowId, stepId, Action.Send(dest, topic, message),
                                     SendTx(old(db.wfs), workflowId, stepId, Action.Send(dest, topic, message),
                                            uuid, now))
      ensures !withinStep && r.Ok? && CheckOperation(old(db.wfs), workflowId, stepId, "DBOS.send") == Ok(None) ==>
        && dest in db.wfs && uuid in db.wfs[dest].inbox
        && db.wfs[dest].inbox[uuid]
           == Note(if topic == "" then NULL_TOPIC else topic, message, Some(PORTABLE), now, false)
        && HasUnitRow(db.wfs, workflowId, stepId, "DBOS.send")
    {
      if withinStep {
        return Err(InsideStep);
      }
      var i := NextStepId();
      var rec := db.CheckOperationExecution(workflowId, i, "DBOS.send");
      match rec
      case Err(e) => r := Err(e);
      case Ok(Some(_)) => r := Ok(Unit);
      case Ok(None) =>
        var to := if topic == "" then NULL_TOPIC else topic;
        var saved := db.wfs;
        r := db.InsertNotification(dest, uuid, Note(to, message, Some(PORTABLE), now, false));
        if r.Ok? {
          r := db.RecordOperationResult(workflowId, i, UnitOp("DBOS.send"));
        }
        if r.Err? {
          db.Rollback(saved);
        }
    }

    method SetEvent(key: Key, value: string) returns (r: Result<Outcome, DbError>)
      requires Valid()
      modifies this, db
      ensures Valid()
      ensures withinStep ==> r == Err(InsideStep) && stepId == old(stepId) && db.wfs == old(db.wfs)
      ensures !withinStep ==>
        && stepId == old(stepId) + 1
        && Tx(db.wfs, r) == Memoised(old(db.wfs), workflowId, stepId, Action.SetEvent(key, value),
                                     EffectTx(old(db.wfs), workflowId, stepId, Action.SetEvent(key, value)))
      ensures !withinStep && r.Ok? && CheckOperation(old(db.wfs), workflowId, stepId, "DBOS.setEvent") == Ok(None) ==>
        && workflowId in db.wfs && key in db.wfs[workflowId].events && (stepId, key) in db.wfs[workflowId].history
        && db.wfs[workflowId].events[key] == db.wfs[workflowId].history[(stepId, key)] == Stored(value, Some(PORTABLE))
        && HasUnitRow(db.wfs, workflowId, stepId, "DBOS.setEvent")
    {
      if withinStep {
        return Err(InsideStep);
      }
      var i := NextStepId();
      var rec := db.CheckOperationExecution(workflowId, i, "DBOS.setEvent");
      match rec
      case Err(e) => r := Err(e);
      case Ok(Some(_)) => r := Ok(Unit);
      case Ok(None) =>
        var stored := Stored(value, Some(PORTABLE));
        ghost var before := db.wfs[workflowId];
        db.UpsertWorkflowEvent(workflowId, key, stored);
        db.InsertWorkflowEventHistory(workflowId, i, key, stored);
        assert db.wfs[workflowId] == WithOutputs(before, Effect(OutputsOf(before), Action.SetEvent(key, value), i));
        r := db.RecordOperationResult(workflowId, i, UnitOp("DBOS.setEvent"));
    }

    method WriteStreamRaw(a: Action) returns (r: Result<Outcome, DbError>)
      requires Valid() && WritesStream(a)
      modifies this, db
      ensures Valid()
      ensures withinStep ==> r == Err(InsideStep) && stepId == old(stepId) && db.wfs == old(db.wfs)
      ensures !withinStep ==>
        && stepId == old(stepId) + 1
        && Tx(db.wfs, r) == Memoised(old(db.wfs), workflowId, stepId, a, EffectTx(old(db.wfs), workflowId, stepId, a))
      ensures !withinStep && r.Ok? && CheckOperation(old(db.wfs), workflowId, stepId, ActionName(a)) == Ok(None) ==>
        && HasUnitRow(db.wfs, workflowId, stepId, if a.Write? then "DBOS.writeStream" else "DBOS.closeStream")
        && workflowId in old(db.wfs)
        && var streams := old(db.wfs)[workflowId].streams;
           db.wfs[workflowId].streams == streams[(a.key, NextOffset(streams, a.key)) :=
             if a.Write? then Entry(a.text, stepId, Some(PORTABLE)) else Entry(SENTINEL, stepId, None)]
    {
      if withinStep {
        return Err(InsideStep);
      }
      var i := NextStepId();
      var rec := db.CheckOperationExecution(workflowId, i, ActionName(a));
      match rec
      case Err(e) => r := Err(e);
      case Ok(Some(_)) => r := Ok(Unit);
      case Ok(None) =>
        var saved := db.wfs;
        var value: string := if a.Write? then a.text else SENTINEL;
        r := db.WriteStreamEntry(workflowId, i, a.key, value, if a.Write? then Some(PORTABLE) else None);
        if r.Ok? {
          assert db.wfs[workflowId] == WithOutputs(saved[workflowId], Effect(OutputsOf(saved[workflowId]), a, i));
          r := db.RecordOperationResult(workflowId, i, UnitOp(ActionName(a)));
        }
        if r.Err? {
          db.Rollback(saved);
        }
    }

    // ---- waiting ----------------------------------------------------------------------------------------------

    /** Record the wake-up deadline, or read back the one recorded first. */
    method RecordSleep(i: nat, duration: nat, now: int) returns (r: Result<int, DbError>)
      modifies db
      ensures Tx(db.wfs, r) == DeadlineLook(old(db.wfs), workflowId, i, now + duration)
      ensures CheckOperation(old(db.wfs), workflowId, i, "DBOS.sleep") == Ok(None) && r.Ok? ==>
        && r.value == now + duration && workflowId in db.wfs && i in db.wfs[workflowId].ops
        && db.wfs[workflowId].ops[i]
           == Op("DBOS.sleep", Some(Millis(now + duration)), None, None, Some("portable_json"))
    {
      var rec := db.CheckOperationExecution(workflowId, i, SLEEP_NAME);
      match rec
      case Err(e) => r := Err(e);
      case Ok(Some(op)) => r := if IsSleepOp(op) then Ok(DeadlineOf(op)) else Err(BadPayload);
      case Ok(None) =>
        var end := now + duration;
        var got := db.RecordOperationResult(workflowId, i, SleepOp(end));
        match got
        case Ok(_) => r := Ok(end);
        case Err(e) => r := Err(e);
    }

    /** `sleep`: returns how long it waits; the clock may have moved on to `after` by then. */
    method Sleep(duration: nat, now: int, after: int) returns (r: Result<nat, DbError>, ghost slept: Tx<int>)
      requires Valid()
      modifies this, db
      ensures Valid()
      ensures withinStep ==> r == Err(InsideStep) && stepId == old(stepId) && db.wfs == old(db.wfs)
      ensures !withinStep ==>
        && stepId == old(stepId) + 1 && db.wfs == slept.db
        && slept == DeadlineLook(old(db.wfs), workflowId, stepId, now + duration)
        && match slept.result
           case Ok(end) => r == Ok(Remaining(end, after)) && after + Remaining(end, after) >= end
           case Err(e) => r == Err(e)
    {
      slept := Tx(db.wfs, Err(InsideStep));
      if withinStep {
        r := Err(InsideStep);
      } else {
        var i := NextStepId();
        var end := RecordSleep(i, duration, now);
        slept := Tx(db.wfs, end);
        match end
        case Err(e) => r := Err(e);
        case Ok(e) => r := Ok(if e - after > 0 then e - after else 0);
      }
    }

    /** Wait until a message is there or the deadline has passed; None while neither has happened. */
    method AwaitMessage(topic: string, deadline: int, views: seq<View>) returns (turn: Option<nat>)
      ensures turn.Some? ==>
        turn.value < |views| && (HasMessage(views[turn.value], workflowId, topic) || deadline <= views[turn.value].now)
      ensures forall k :: 0 <= k < (if turn.Some? then turn.value else |views|) ==>
        !HasMessage(views[k], workflowId, topic) && views[k].now < deadline
    {
      turn := None;
      var i := 0;
      while i < |views| && turn.None?
        invariant 0 <= i <= |views| && (turn.Some? ==> i < |views| && turn.value == i)
        invariant turn.Some? ==> HasMessage(views[i], workflowId, topic) || deadline <= views[i].now
        invariant forall k :: 0 <= k < i ==> !HasMessage(views[k], workflowId, topic) && views[k].now < deadline
        decreases |views| - i, turn.None?
      {
        var found := HasMessage(views[i], workflowId, topic);
        if found || views[i].now >= deadline {
          turn := Some(i);
        } else {
          i := i + 1;
        }
      }
    }

    /** Poll for the event until it is there or the deadline has passed. */
    method AwaitEvent(
      target: Id, key: Key, deadline: int, views: seq<View>) returns (turn: Option<nat>, found: Option<Stored>)
      ensures turn.Some? ==>
        && turn.value < |views| && found == SelectEvent(views[turn.value].db, target, key)
        && (found.Some? || deadline <= views[turn.value].now)
      ensures forall k :: 0 <= k < (if turn.Some? then turn.value else |views|) ==>
        SelectEvent(views[k].db, target, key).None? && views[k].now < deadline
    {
      turn, found := None, None;
      var i := 0;
      while i < |views| && turn.None?
        invariant 0 <= i <= |views| && (turn.Some? ==> i < |views| && turn.value == i)
        invariant turn.Some? ==> found == SelectEvent(views[i].db, target, key)
        invariant turn.Some? ==> found.Some? || deadline <= views[i].now
        invariant forall k :: 0 <= k < i ==> SelectEvent(views[k].db, target, key).None? && views[k].now < deadline
        decreases |views| - i, turn.None?
      {
        found := SelectEvent(views[i].db, target, key);
        if found.Some? || views[i].now >= deadline {
          turn := Some(i);
        } else {
          i := i + 1;
        }
      }
    }

    /** The transaction of `recv`: consume the oldest message and record it, or record that there was none. */
    method ConsumeAndRecord(i: nat, topic: string) returns (r: Result<Outcome, DbError>, ghost pick: Option<string>)
      requires workflowId in db.wfs
      modifies db
      ensures IsPick(old(db.wfs)[workflowId].inbox, topic, pick)
      ensures Tx(db.wfs, r) == RecvTx(old(db.wfs), workflowId, i, pick)
    {
      var saved := db.wfs;
      var picked, note := db.ConsumeOldestNotification(workflowId, topic);
      pick := picked;
      var o := if note.Some? then Value(Some(Text(note.value.message)), Some(FormatOr(note.value.format))) else Missing;
      var rec := db.RecordOperationResult(workflowId, i, OptionalOp("DBOS.recv", o));
      match rec
      case Ok(_) => r := Ok(o);
      case Err(e) =>
        r := Err(e);
        db.Rollback(saved);
    }

    /** `recv`: two step ids; the deadline is recorded before the wait, the message along with its consumption.
        `waiting`: another `recv` of this process waits on the topic. `None` when the views end before the wait does. */
    method Recv(topic: string, timeout: nat, now: int, waiting: bool, views: seq<View>)
      returns (r: Option<Result<Outcome, DbError>>, ghost slept: Tx<int>, ghost pick: Option<string>)
      requires Valid()
      modifies this, db
      ensures Valid() && stepId == old(stepId) + (if withinStep then 0 else 2)
      ensures withinStep ==> r == Some(Err(InsideStep)) && db.wfs == old(db.wfs)
      ensures !withinStep ==> slept == DeadlineLook(old(db.wfs), workflowId, stepId, now + timeout)
      ensures !withinStep ==>
        match CheckOperation(old(db.wfs), workflowId, stepId - 1, "DBOS.recv")
        case Err(e) => r == Some(Err(e)) && db.wfs == old(db.wfs)
        case Ok(Some(op)) => r == Some(Ok(DecodeOptional(op))) && db.wfs == old(db.wfs)
        case Ok(None) =>
          && (waiting ==> r == Some(Err(ConflictingId)) && db.wfs == old(db.wfs))
          && (!waiting && slept.result.Err? ==> r == Some(Err(slept.result.error)) && db.wfs == slept.db)
          && (!waiting && slept.result.Ok? && r.None? ==> db.wfs == slept.db)
          && (!waiting && slept.result.Ok? && r.Some? ==>
                && workflowId in slept.db && IsPick(slept.db[workflowId].inbox, TopicOf(topic), pick)
                && Tx(db.wfs, r.value) == RecvTx(slept.db, workflowId, stepId - 1, pick)
                && (r.value.Ok? ==> r.value.value == MessageIn(slept.db[workflowId].inbox, pick)))
    {
      slept, pick := Tx(db.wfs, Err(InsideStep)), None;
      if withinStep {
        return Some(Err(InsideStep)), slept, None;
      }
      var i := NextStepId();
      var d := NextStepId();
      slept := DeadlineLook(db.wfs, workflowId, d, now + timeout);
      var rec := db.CheckOperationExecution(workflowId, i, "DBOS.recv");
      match rec {
        case Err(e) => return Some(Err(e)), slept, None;
        case Ok(Some(op)) => return Some(Ok(DecodeOptional(op))), slept, None;
        case Ok(None) =>
      }
      if waiting {
        return Some(Err(ConflictingId)), slept, None;
      }
      var deadline := RecordSleep(d, timeout, now);
      match deadline
      case Err(e) => r := Some(Err(e));
      case Ok(end) =>
        var turn := AwaitMessage(TopicOf(topic), end, views);
        r := None;
        if turn.Some? {
          var got;
          got, pick := ConsumeAndRecord(i, TopicOf(topic));
          r := Some(got);
        }
    }

    /** `get_event`: as `recv`, but the value found is recorded without being consumed. */
    method GetEvent(target: Id, key: Key, timeout: nat, now: int, views: seq<View>)
      returns (r: Option<Result<Outcome, DbError>>, ghost slept: Tx<int>, ghost turn: Option<nat>)
      requires Valid()
      modifies this, db
      ensures Valid() && stepId == old(stepId) + (if withinStep then 0 else 2)
      ensures withinStep ==> r == Some(Err(InsideStep)) && db.wfs == old(db.wfs)
      ensures !withinStep ==> slept == DeadlineLook(old(db.wfs), workflowId, stepId, now + timeout)
      ensures !withinStep ==>
        match CheckOperation(old(db.wfs), workflowId, stepId - 1, "DBOS.getEvent")
        case Err(e) => r == Some(Err(e)) && db.wfs == old(db.wfs)
        case Ok(Some(op)) => r == Some(Ok(DecodeOptional(op))) && db.wfs == old(db.wfs)
        case Ok(None) =>
          && (slept.result.Err? ==> r == Some(Err(slept.result.error)) && db.wfs == slept.db)
          && (slept.result.Ok? && r.None? ==> db.wfs == slept.db)
          && (slept.result.Ok? && r.Some? ==>
                && turn.Some? && turn.value < |views|
                && Tx(db.wfs, r.value)
                   == GetEventTx(slept.db, workflowId, stepId - 1, SelectEvent(views[turn.value].db, target, key))
                && (r.value.Ok? ==> r.value.value == EventIn(views[turn.value].db, target, key))
                && (r.value == Ok(Missing) ==> slept.result.value <= views[turn.value].now))
    {
      slept, turn := Tx(db.wfs, Err(InsideStep)), None;
      if withinStep {
        return Some(Err(InsideStep)), slept, None;
      }
      var i := NextStepId();
      var d := NextStepId();
      slept := DeadlineLook(db.wfs, workflowId, d, now + timeout);
      var rec := db.CheckOperationExecution(workflowId, i, "DBOS.getEvent");
      match rec {
        case Err(e) => return Some(Err(e)), slept, None;
        case Ok(Some(op)) => return Some(Ok(DecodeOptional(op))), slept, None;
        case Ok(None) =>
      }
      var deadline := RecordSleep(d, timeout, now);
      match deadline
      case Err(e) => r := Some(Err(e));
      case Ok(end) =>
        var at, found := AwaitEvent(target, key, end, views);
        turn := at;
        r := None;
        if at.Some? {
          var got := db.RecordOperationResult(workflowId, i, OptionalOp("DBOS.getEvent", Observed(found)));
          match got
          case Ok(_) => r := Some(Ok(Observed(found)));
          case Err(e) => r := Some(Err(e));
        }
    }

    // ---- children ---------------------------------------------------------------------------------------------

    /** `run_workflow`: the child recorded at this step, or a new one whose row and record commit together. */
    method RunWorkflow(name: string, input: InsertInput, maxRetries: int)
      returns (r: Result<Outcome, DbError>, runs: bool)
      requires Valid() && input.row.name == name && input.row.owner.Some?
      modifies this, db
      ensures Valid()
      ensures withinStep ==> r == Err(InsideStep) && stepId == old(stepId) && db.wfs == old(db.wfs) && !runs
      ensures !withinStep ==> stepId == old(stepId) + 1
      ensures !withinStep && RecordedChild(old(db.wfs), workflowId, stepId).Some? ==>
        r == Ok(Handle(RecordedChild(old(db.wfs), workflowId, stepId).value)) && db.wfs == old(db.wfs) && !runs
      ensures !withinStep && RecordedChild(old(db.wfs), workflowId, stepId).None? ==>
        && Tx(db.wfs, r) == ChildTx(old(db.wfs), workflowId, stepId, name, input, maxRetries)
        && (runs <==> r.Ok? && RunsBody(InsertStatus(old(db.wfs), input, maxRetries).1, input.row.owner, false))
        && (r.Ok? ==> r.value == Handle(input.id) && input.id in db.wfs && name in {"", db.wfs[input.id].row.name})
    {
      runs := false;
      if withinStep {
        return Err(InsideStep), false;
      }
      var i := NextStepId();
      var child := db.CheckChildWorkflow(workflowId, i);
      if child.Some? {
        return Ok(Handle(child.value)), false;
      }
      var saved := db.wfs;
      var out := db.InsertWorkflowStatus(input, maxRetries);
      if !out.Touched? {
        return Err(ChildRejected), false;
      }
      if out.deadLettered {
        return Err(DeadLetterQueue), false;
      }
      r := db.RecordOperationResult(workflowId, i, Op(name, None, None, Some(input.id), None));
      if r.Err? {
        db.Rollback(saved);
        return;
      }
      r := Ok(Handle(input.id));
      runs := !(out.status.Success? || out.status.Error? || out.owner != input.row.owner);
    }
  }

  // ---- the replay engine --------------------------------------------------------------------------------------

  /** The operations that take one step id and do not wait. */
  predicate IsPrompt(a: Action) {
    a.Step? || a.Send? || a.SetEvent? || WritesStream(a)
  }

  /** The state of an execution in which it commits operation `m`. */
  function Committing(e: Exec, m: nat): Exec {
    e.(counter := m, slot := m, phase := Running)
  }

  /** A workflow that the status guard lets pass. */
  ghost predicate Passes(reg: Registry, s: Sys, e: nat) {
    && Can(reg, s, e) && s.execs[e].phase.Ready? && s.execs[e].counter >= -1
    && !s.db[s.execs[e].wf].row.status.Cancelled?
  }

  /** Execution `e` has seen `o` and goes on after step `last`, or has ended with the error. */
  ghost predicate Ends(s: Sys, e: nat, hist: seq<Outcome>, last: int, r: Result<Outcome, DbError>) {
    && e in s.execs
    && match r
       case Ok(o) => s.execs[e].phase == Ready && s.execs[e].hist == hist + [o] && s.execs[e].counter == last
       case Err(error) => s.execs[e].phase == Dead(error)
  }

  /** A method stopped by the status guard changes no table; for the replay engine the execution crashes. */
  lemma GuardIsCrash(reg: Registry, s: Sys, e: nat, i: nat, a: Action, tx: Tx<Outcome>)
    requires e in s.execs && (s.execs[e].wf !in s.db || s.db[s.execs[e].wf].row.status.Cancelled?)
    ensures Memoised(s.db, s.execs[e].wf, i, a, tx).result.Err? && Memoised(s.db, s.execs[e].wf, i, a, tx).db == s.db
    ensures Next(reg, s, Crash(e), s.(execs := s.execs - {e}))
  {
  }

  /**
   A prompt method of the context, run by itself, is one look-up or a look-up and a commit of the replay engine: the
   same tables, and the execution has seen the same outcome or ended with the same error.
   */
  lemma OperationIsReplayed(reg: Registry, s: Sys, e: nat, c: Choice) returns (s1: Sys, s2: Sys)
    requires Passes(reg, s, e) && IsPrompt(Asked(reg, s, e)) && ValidChoice(s, Asked(reg, s, e), s.execs[e], c)
    ensures Next(reg, s, Look(e), s1)
    ensures var x, a := s.execs[e], Asked(reg, s, e);
      var m := x.counter + 1;
      var tx := Memoised(s.db, x.wf, m, a, CommitTx(s.db, a, Committing(x, m), c, s.now));
      && (if m in s.db[x.wf].ops then s2 == s1 else Next(reg, s1, Commit(e, c), s2))
      && s2.db == tx.db && Ends(s2, e, x.hist, m, tx.result)
  {
    var x, a := s.execs[e], Asked(reg, s, e);
    var m := x.counter + 1;
    s1 := SetExec(s, e, AfterLook(a, OpsAt(reg, s, e), x, s.now));
    if m in s.db[x.wf].ops {
      s2 := s1;
    } else {
      assert s1.execs[e] == Committing(x, m) && Asked(reg, s1, e) == a;
      s2 := Committed(s1, a, e, c);
    }
  }

  /** `run_workflow` is a look-up, or a look-up and a commit. */
  lemma ChildIsReplayed(reg: Registry, s: Sys, e: nat, c: Choice) returns (s1: Sys, s2: Sys)
    requires Can(reg, s, e) && s.execs[e].phase.Ready? && s.execs[e].counter >= -1
    requires Asked(reg, s, e).Child? && ValidChoice(s, Asked(reg, s, e), s.execs[e], c)
    ensures Next(reg, s, Look(e), s1)
    ensures var x, a := s.execs[e], Asked(reg, s, e);
      var m := x.counter + 1;
      var child := RecordedChild(s.db, x.wf, m);
      var tx := if child.Some? then Tx(s.db, Ok(Handle(child.value)))
                else ChildTx(s.db, x.wf, m, a.name, c.child, c.maxRetries);
      && (if child.Some? then s2 == s1 else Next(reg, s1, Commit(e, c), s2))
      && s2.db == tx.db && Ends(s2, e, x.hist, m, tx.result)
  {
    var x, a := s.execs[e], Asked(reg, s, e);
    var m := x.counter + 1;
    s1 := SetExec(s, e, AfterLook(a, OpsAt(reg, s, e), x, s.now));
    if RecordedChild(s.db, x.wf, m).Some? {
      s2 := s1;
    } else {
      assert s1.execs[e] == Committing(x, m) && Asked(reg, s1, e) == a;
      s2 := Committed(s1, a, e, c);
    }
  }

  // ---- waiting operations -------------------------------------------------------------------------------------

  /** Execution `e` waits for the deadline of `slept`, or has ended with its error. */
  ghost predicate Waits(s: Sys, e: nat, x: Exec, slept: Tx<int>) {
    && s.db == slept.db && e in s.execs
    && s.execs[e] == x.(phase := if slept.result.Ok? then Asleep(slept.result.value) else Dead(slept.result.error))
  }

  /** `sleep` up to its wait: a look-up, and the deadline recorded if there was none. */
  lemma SleepIsReplayed(reg: Registry, s: Sys, e: nat) returns (s1: Sys, s2: Sys)
    requires Passes(reg, s, e) && Asked(reg, s, e).Sleep?
    ensures Next(reg, s, Look(e), s1)
    ensures var x := s.execs[e];
      var m := x.counter + 1;
      && (s2 == s1 || Next(reg, s1, RecordDeadline(e), s2))
      && Waits(s2, e, x.(counter := m, slot := m), DeadlineLook(s.db, x.wf, m, s.now + Asked(reg, s, e).ms))
  {
    var x, a := s.execs[e], Asked(reg, s, e);
    var m := x.counter + 1;
    s1 := SetExec(s, e, AfterLook(a, OpsAt(reg, s, e), x, s.now));
    if m in s.db[x.wf].ops {
      s2 := s1;
    } else {
      s2 := AfterRecord(reg, s1, e);
    }
  }

  /** The deadline is recorded. */
  lemma AfterRecord(reg: Registry, s: Sys, e: nat) returns (s': Sys)
    requires Can(reg, s, e) && s.execs[e].phase.Recording?
    ensures Next(reg, s, RecordDeadline(e), s')
    ensures var x := s.execs[e];
      Waits(s', e, x, DeadlineTx(s.db, x.wf, DeadlineSlot(Asked(reg, s, e), x.slot), x.phase.end))
  {
    var x := s.execs[e];
    var tx := DeadlineTx(s.db, x.wf, DeadlineSlot(Asked(reg, s, e), x.slot), x.phase.end);
    var phase := if tx.result.Ok? then Asleep(tx.result.value) else Dead(tx.result.error);
    s' := SetExec(s, e, x.(phase := phase)).(db := tx.db);
  }

  /** The wait of a `sleep` ends when its deadline has passed, not before. */
  lemma SleepWakes(reg: Registry, s: Sys, e: nat, s': Sys)
    requires Can(reg, s, e) && s.execs[e].phase.Asleep? && Asked(reg, s, e).Sleep?
    requires s' == SetExec(s, e, AfterTx(s.execs[e], Ok(Unit)))
    ensures Next(reg, s, Wake(e), s') <==> Remaining(s.execs[e].phase.deadline, s.now) == 0
    ensures Ends(s', e, s.execs[e].hist, s.execs[e].counter, Ok(Unit))
  {
  }

  /** `recv` or `get_event` whose checkpoint is there: one look-up returns it. */
  lemma TimedIsReplayed(reg: Registry, s: Sys, e: nat) returns (s1: Sys)
    requires Passes(reg, s, e) && Slots(Asked(reg, s, e)) == 2 && s.execs[e].counter + 1 in OpsAt(reg, s, e)
    ensures Next(reg, s, Look(e), s1) && s1.db == s.db
    ensures var x, a := s.execs[e], Asked(reg, s, e);
      match CheckOperation(s.db, x.wf, x.counter + 1, ActionName(a))
      case Ok(Some(op)) => Ends(s1, e, x.hist, x.counter + 2, Ok(DecodeOptional(op)))
      case Ok(None) => false
      case Err(error) => Ends(s1, e, x.hist, x.counter + 2, Err(error))
  {
    s1 := SetExec(s, e, AfterLook(Asked(reg, s, e), OpsAt(reg, s, e), s.execs[e], s.now));
  }

  /** Otherwise, up to the wait: the look-up, the look-up of the deadline at the second step id, and the deadline
      recorded if there was none. */
  lemma TimedSleeps(reg: Registry, s: Sys, e: nat, timeout: nat) returns (s1: Sys, s2: Sys, s3: Sys)
    requires Passes(reg, s, e) && s.execs[e].counter + 1 !in OpsAt(reg, s, e)
    requires match Asked(reg, s, e)
             case Recv(_, t) => timeout == t
             case GetEvent(_, _, t) => timeout == t
             case _ => false
    ensures Next(reg, s, Look(e), s1) && Next(reg, s1, LookDeadline(e), s2)
    ensures s3 == s2 || Next(reg, s2, RecordDeadline(e), s3)
    ensures var x := s.execs[e];
      var m := x.counter + 1;
      Waits(s3, e, x.(counter := m + 1, slot := m),
            DeadlineLook(s.db, x.wf, m + 1, s.now + timeout))
  {
    var x, a := s.execs[e], Asked(reg, s, e);
    s1 := SetExec(s, e, AfterLook(a, OpsAt(reg, s, e), x, s.now));
    assert Asked(reg, s1, e) == a;
    s2 := SetExec(s1, e, AfterLookDeadline(a, OpsAt(reg, s1, e), s1.execs[e], s1.now));
    if x.counter + 2 in s.db[x.wf].ops {
      s3 := s2;
    } else {
      assert Asked(reg, s2, e) == a;
      s3 := AfterRecord(reg, s2, e);
    }
  }

  /** One turn of the wait, in whatever state the system is by then: it ends exactly when `AwaitMessage` stops. */
  lemma RecvPolls(reg: Registry, s: Sys, e: nat) returns (s': Sys)
    requires Can(reg, s, e) && s.execs[e].phase.Asleep? && Asked(reg, s, e).Recv?
    ensures Next(reg, s, Poll(e), s') && s'.db == s.db && e in s'.execs
    ensures var x, topic := s.execs[e], TopicOf(Asked(reg, s, e).topic);
      s'.execs[e] == if HasMessage(View(s.db, s.now), x.wf, topic) || x.phase.deadline <= s.now
                     then x.(phase := Consuming) else x
  {
    s' := SetExec(s, e, AfterPoll(Asked(reg, s, e), s.db, s.execs[e], s.now));
  }

  /** It ends exactly when `AwaitEvent` stops, with what that saw. */
  lemma GetEventPolls(reg: Registry, s: Sys, e: nat) returns (s': Sys)
    requires Can(reg, s, e) && s.execs[e].phase.Asleep? && Asked(reg, s, e).GetEvent?
    ensures Next(reg, s, Poll(e), s') && s'.db == s.db && e in s'.execs
    ensures var x, a := s.execs[e], Asked(reg, s, e);
      var found := SelectEvent(s.db, a.target, a.key);
      s'.execs[e] == if found.Some? || x.phase.deadline <= s.now then x.(phase := Observing(found)) else x
  {
    s' := SetExec(s, e, AfterPoll(Asked(reg, s, e), s.db, s.execs[e], s.now));
  }

  /** The last transaction of `recv`. */
  lemma RecvCommits(reg: Registry, s: Sys, e: nat, c: Choice) returns (s': Sys)
    requires Can(reg, s, e) && Asked(reg, s, e).Recv? && s.execs[e].phase.Consuming?
    requires IsPick(s.db[s.execs[e].wf].inbox, TopicOf(Asked(reg, s, e).topic), c.pick)
    ensures Next(reg, s, Commit(e, c), s')
    ensures var x := s.execs[e];
      var tx := RecvTx(s.db, x.wf, x.slot, c.pick);
      && s'.db == tx.db && Ends(s', e, x.hist, x.counter, tx.result)
      && (tx.result.Ok? ==> s'.execs[e].hist == x.hist + [MessageIn(s.db[x.wf].inbox, c.pick)])
  {
    s' := Committed(s, Asked(reg, s, e), e, c);
  }

  /** The last transaction of `get_event`. */
  lemma GetEventCommits(reg: Registry, s: Sys, e: nat, c: Choice) returns (s': Sys)
    requires Can(reg, s, e) && Asked(reg, s, e).GetEvent? && s.execs[e].phase.Observing?
    ensures Next(reg, s, Commit(e, c), s')
    ensures var x := s.execs[e];
      var tx := GetEventTx(s.db, x.wf, x.slot, x.phase.found);
      && s'.db == tx.db && Ends(s', e, x.hist, x.counter, tx.result)
      && (tx.result.Ok? ==>
            s'.execs[e].hist == x.hist + [if x.phase.found == None then Missing
                                          else InFormat(x.phase.found.value.value, x.phase.found.value.format)])
  {
    s' := Committed(s, Asked(reg, s, e), e, c);
  }
}
