/** Messages: sent exactly once, consumed at most once, in order, by the operation that recorded them. */
module Mailbox {
  import opened Wrappers
  import opened Tables
  import opened StatusTable
  import opened Operations
  import opened Histories
  import opened Replay
  import opened ReplayProofs
  import opened ReplayTheorems

  // ---- invariant ------------------------------------------------------------------------------------

  ghost predicate Within(s: Sys, w: Id, u: string) {
    w in s.db && u in s.db[w].inbox
  }

  /** Message ids are unique and not from the future. */
  ghost predicate IdsOk(s: Sys) {
    && (forall w, u :: Within(s, w, u) ==> u in s.issued && s.db[w].inbox[u].createdAt <= s.now)
    && (forall v, w, u {:trigger Within(s, v, u), Within(s, w, u)} :: Within(s, v, u) && Within(s, w, u) ==> v == w)
    && s.sent.Keys <= s.issued && s.taken.Keys <= s.issued
  }

  ghost predicate Performed(reg: Registry, db: Db, o: (Id, nat), a: Action) {
    o.0 in db && Operation(BodyOf(reg, db[o.0]), db[o.0].ops, o.1, a)
  }

  /** `own` names the operation behind each checkpoint. */
  ghost predicate OwnOk(reg: Registry, s: Sys) {
    forall o :: o in s.own ==> Performed(reg, s.db, o, s.own[o])
  }

  /** All checkpoints of a workflow that is no fork are its own. */
  ghost predicate OwnComplete(reg: Registry, s: Sys) {
    forall o, a {:trigger Performed(reg, s.db, o, a)} ::
      Performed(reg, s.db, o, a) && s.db[o.0].row.forkedFrom.None? && !a.Sleep? ==> o in s.own
  }

  ghost predicate Carries(note: Note, a: Action) {
    a.Send? && note.topic == TopicOf(a.topic) && note.message == a.message && note.format == Some(PORTABLE)
  }

  ghost predicate IsSent(s: Sys, u: string, o: (Id, nat)) {
    u in s.sent && s.sent[u] == o
  }

  /** Each `send` a workflow committed itself inserted exactly one message, which is in the mailbox of
      its destination as long as that is not deleted; no other message claims a sender. */
  ghost predicate SentOk(s: Sys) {
    SendersOwn(s) && SendsSent(s) && SentArrived(s)
  }

  ghost predicate SendersOwn(s: Sys) {
    && (forall u :: u in s.sent ==> s.sent[u] in s.own && s.own[s.sent[u]].Send?)
    && (forall u, v :: u in s.sent && v in s.sent && s.sent[u] == s.sent[v] ==> u == v)
  }

  ghost predicate SendsSent(s: Sys) {
    forall o :: o in s.own && s.own[o].Send? ==> exists u :: IsSent(s, u, o)
  }

  ghost predicate SentArrived(s: Sys)
    requires SendersOwn(s)
  {
    && (forall u :: u in s.sent && s.own[s.sent[u]].dest !in s.gone ==> Within(s, s.own[s.sent[u]].dest, u))
    && (forall w, u :: Within(s, w, u) && u in s.sent ==>
          s.own[s.sent[u]].dest == w && Carries(s.db[w].inbox[u], s.own[s.sent[u]]))
  }

  ghost predicate IsTaken(s: Sys, u: string, o: (Id, nat)) {
    u in s.taken && s.taken[u] == o
  }

  /** The checkpoint of a `recv` that got `note`. */
  function ReceivedOp(note: Note): Op {
    Op("DBOS.recv", Some(Text(note.message)), None, None, Some(FormatOr(note.format)))
  }

  /** Operation `o` is a `recv` that recorded the consumed message `u` of its own mailbox. */
  ghost predicate RecordedBy(s: Sys, u: string, o: (Id, nat)) {
    && o in s.own && s.own[o].Recv?
    && Within(s, o.0, u) && s.db[o.0].inbox[u].consumed && s.db[o.0].inbox[u].topic == TopicOf(s.own[o].topic)
    && o.1 in s.db[o.0].ops && s.db[o.0].ops[o.1] == ReceivedOp(s.db[o.0].inbox[u])
  }

  ghost predicate RecordedSome(db: Db, o: (Id, nat)) {
    o.0 in db && o.1 in db[o.0].ops && db[o.0].ops[o.1].output.Some?
  }

  /** Consumed messages correspond one to one with own `recv` rows of non-null output. */
  ghost predicate TakenOk(s: Sys) {
    TakersRecord(s) && RecvsTake(s) && ConsumedTaken(s)
  }

  ghost predicate TakersRecord(s: Sys) {
    && (forall u :: u in s.taken ==> RecordedBy(s, u, s.taken[u]))
    && (forall u, v :: u in s.taken && v in s.taken && s.taken[u] == s.taken[v] ==> u == v)
  }

  ghost predicate RecvsTake(s: Sys) {
    forall o :: o in s.own && s.own[o].Recv? && RecordedSome(s.db, o) ==> exists u :: IsTaken(s, u, o)
  }

  ghost predicate ConsumedTaken(s: Sys) {
    forall w, u :: Within(s, w, u) && s.db[w].inbox[u].consumed ==> u in s.taken && s.taken[u].0 == w
  }

  /** A consumed message is no newer than any message of its topic still unread. */
  ghost predicate InOrder(inbox: Inbox) {
    forall u, v :: u in inbox && inbox[u].consumed && Unread(inbox, inbox[u].topic, v) ==>
      inbox[u].createdAt <= inbox[v].createdAt
  }

  ghost predicate OrderOk(s: Sys) {
    forall w :: w in s.db ==> InOrder(s.db[w].inbox)
  }

  ghost predicate MailInv(reg: Registry, s: Sys) {
    IdsOk(s) && OwnOk(reg, s) && OwnComplete(reg, s) && SentOk(s) && TakenOk(s) && OrderOk(s)
  }

  // ---- checkpoints ----------------------------------------------------------------------------------

  lemma PerformedStays(reg: Registry, db: Db, db': Db, o: (Id, nat), a: Action)
    requires Performed(reg, db, o, a) && o.0 in db' && Advances(reg, db, db')
    ensures Performed(reg, db', o, a)
  {
    OperationStays(BodyOf(reg, db[o.0]), db[o.0].ops, db'[o.0].ops, o.1, a);
  }

  lemma PerformedWas(reg: Registry, s: Sys, s': Sys, o: (Id, nat), a: Action)
    requires Inv(reg, s) && Inv(reg, s') && Advances(reg, s.db, s'.db)
    requires Performed(reg, s'.db, o, a) && o.0 in s.db && o.1 in s.db[o.0].ops
    ensures Performed(reg, s.db, o, a)
  {
    var x, y := s.db[o.0], s'.db[o.0];
    assert WorkflowOk(reg, x) && WorkflowOk(reg, y);
    var h :| Frontier(BodyOf(reg, x), x, h);
    var h' :| Frontier(BodyOf(reg, y), y, h');
    OperationWas(BodyOf(reg, x), x.ops, y.ops, h, h', o.1, a);
  }

  /** Rows of workflow `w` other than `own'`, and rows of new workflows, are accounted for as before. */
  lemma OwnStays(reg: Registry, s: Sys, s': Sys)
    requires Inv(reg, s) && Inv(reg, s') && Advances(reg, s.db, s'.db) && OwnOk(reg, s) && OwnComplete(reg, s)
    requires forall o :: o in s'.own ==>
      (o in s.own && s'.own[o] == s.own[o] && o.0 in s'.db) || Performed(reg, s'.db, o, s'.own[o])
    requires forall o :: o in s.own && o.0 in s'.db ==> o in s'.own
    requires forall o, a {:trigger Performed(reg, s'.db, o, a)} ::
      Performed(reg, s'.db, o, a) && !a.Sleep? && s'.db[o.0].row.forkedFrom.None? && o !in s'.own
      ==> o.0 in s.db && o.1 in s.db[o.0].ops
    ensures OwnOk(reg, s') && OwnComplete(reg, s')
  {
    forall o | o in s'.own ensures Performed(reg, s'.db, o, s'.own[o]) {
      if o in s.own && s'.own[o] == s.own[o] && o.0 in s'.db {
        assert Performed(reg, s.db, o, s.own[o]);
        PerformedStays(reg, s.db, s'.db, o, s.own[o]);
      }
    }
    forall o, a | Performed(reg, s'.db, o, a) && s'.db[o.0].row.forkedFrom.None? && !a.Sleep? ensures o in s'.own {
      if o !in s'.own {
        PerformedWas(reg, s, s', o, a);
      }
    }
  }

  // ---- transactions that move no message ------------------------------------------------------------

  /** Mailboxes stay as they are; new workflows have none. */
  ghost predicate InboxesSame(db: Db, db': Db) {
    && db.Keys <= db'.Keys
    && forall w :: w in db' ==> db'[w].inbox == if w in db then db[w].inbox else map[]
  }

  ghost predicate OpsGrow(db: Db, db': Db) {
    forall w :: w in db && w in db' ==> Grown(db[w].ops, db'[w].ops)
  }

  ghost predicate Quiet(s: Sys, s': Sys) {
    && InboxesSame(s.db, s'.db) && OpsGrow(s.db, s'.db)
    && s'.issued == s.issued && s'.sent == s.sent && s'.taken == s.taken && s'.gone == s.gone && s.now <= s'.now
    && (forall o :: o in s.own ==> o in s'.own && s'.own[o] == s.own[o])
    && (forall o :: o in s'.own && o !in s.own ==> !s'.own[o].Send?)
    && (forall o :: o in s'.own && o !in s.own && s'.own[o].Recv? ==> !RecordedSome(s'.db, o))
  }

  lemma QuietKeeps(reg: Registry, s: Sys, s': Sys)
    requires IdsOk(s) && OwnOk(reg, s) && SentOk(s) && TakenOk(s) && OrderOk(s) && Quiet(s, s')
    ensures IdsOk(s') && SentOk(s') && TakenOk(s') && OrderOk(s')
  {
    assert forall w, u :: Within(s', w, u) <==> Within(s, w, u);
    QuietSent(s, s');
    QuietTaken(reg, s, s');
  }

  lemma QuietSent(s: Sys, s': Sys)
    requires SentOk(s) && Quiet(s, s')
    ensures SentOk(s')
  {
    assert forall w, u :: Within(s', w, u) <==> Within(s, w, u);
    forall o | o in s'.own && s'.own[o].Send? ensures exists u :: IsSent(s', u, o) {
      var u :| IsSent(s, u, o);
      assert IsSent(s', u, o);
    }
  }

  lemma QuietTaken(reg: Registry, s: Sys, s': Sys)
    requires OwnOk(reg, s) && TakenOk(s) && Quiet(s, s')
    ensures TakenOk(s')
  {
    assert forall w, u :: Within(s', w, u) <==> Within(s, w, u);
    forall u | u in s'.taken ensures RecordedBy(s', u, s'.taken[u]) {
      assert RecordedBy(s, u, s.taken[u]);
    }
    forall o | o in s'.own && s'.own[o].Recv? && RecordedSome(s'.db, o) ensures exists u :: IsTaken(s', u, o) {
      RecvsStillTake(reg, s, s', o);
    }
  }

  lemma InsertInboxes(db: Db, input: InsertInput, maxRetries: int)
    ensures InboxesSame(db, InsertStatus(db, input, maxRetries).0)
  {
  }

  lemma RecordInboxes<T>(before: Db, db: Db, w: Id, i: nat, op: Op, value: T)
    requires InboxesSame(before, db)
    ensures InboxesSame(before, RecordOp(before, db, w, i, op, value).db)
  {
  }

  lemma ChildInboxes(db: Db, w: Id, i: nat, name: string, input: InsertInput, maxRetries: int)
    ensures InboxesSame(db, ChildTx(db, w, i, name, input, maxRetries).db)
  {
    InsertInboxes(db, input, maxRetries);
    var op := Op(name, None, None, Some(input.id), None);
    RecordInboxes(db, InsertStatus(db, input, maxRetries).0, w, i, op, Handle(input.id));
  }

  lemma EffectInboxes(db: Db, w: Id, i: nat, a: Action)
    requires a.SetEvent? || WritesStream(a)
    ensures InboxesSame(db, EffectTx(db, w, i, a).db)
  {
  }

  /** No operation but `send` and `recv` touches a mailbox, and a failed one never does. */
  lemma CommitInboxes(db: Db, a: Action, e: Exec, c: Choice, now: int)
    requires CommitPhase(a, e.phase) && (a.Step? ==> IsStepResult(c.result))
    requires var tx := CommitTx(db, a, e, c, now); tx.result.Err? || (!a.Send? && !a.Recv?)
    ensures InboxesSame(db, CommitTx(db, a, e, c, now).db)
  {
    match a
    case Step(name) => RecordInboxes(db, db, e.wf, e.slot, StepOp(name, c.result), c.result);
    case GetEvent(_, _, _) =>
      var o := Observed(e.phase.found);
      RecordInboxes(db, db, e.wf, e.slot, OptionalOp("DBOS.getEvent", o), o);
    case Child(name) => ChildInboxes(db, e.wf, e.slot, name, c.child, c.maxRetries);
    case Send(_, _, _) =>
    case Recv(_, _) =>
    case _ => EffectInboxes(db, e.wf, e.slot, a);
  }

  // ---- sending ----------------------------------------------------------------------------------------

  /** Message `u` of workflow `dest` becomes `note`; every other message stays. */
  ghost predicate Puts(db: Db, db': Db, dest: Id, u: string, note: Note) {
    && dest in db && db.Keys == db'.Keys
    && forall w :: w in db ==> db'[w].inbox == if w == dest then db[w].inbox[u := note] else db[w].inbox
  }

  /** A message arrives; `sender` sent it along with its checkpoint, or it was sent from outside. */
  ghost predicate Arrives(s: Sys, s': Sys, dest: Id, u: string, note: Note, sender: Option<(Id, nat)>) {
    && Puts(s.db, s'.db, dest, u, note) && u !in s.issued && !note.consumed && note.createdAt == s.now
    && match sender
       case None => s'.sent == s.sent && s'.own == s.own
       case Some(o) =>
         && o !in s.own && o in s'.own && s'.own == s.own[o := s'.own[o]] && s'.sent == s.sent[u := o]
         && Carries(note, s'.own[o]) && s'.own[o].dest == dest
  }

  lemma PutWithin(s: Sys, s': Sys, dest: Id, u: string, note: Note)
    requires Puts(s.db, s'.db, dest, u, note)
    ensures forall w, v :: Within(s', w, v) <==> Within(s, w, v) || (w == dest && v == u)
    ensures forall w, v :: Within(s, w, v) && (w, v) != (dest, u) ==> s'.db[w].inbox[v] == s.db[w].inbox[v]
  {
  }

  lemma ArrivesIds(s: Sys, s': Sys, dest: Id, u: string, note: Note, sender: Option<(Id, nat)>)
    requires IdsOk(s) && Arrives(s, s', dest, u, note, sender)
    requires s'.issued == s.issued + {u} && s'.taken == s.taken && s'.now == s.now
    ensures IdsOk(s')
  {
    PutWithin(s, s', dest, u, note);
  }

  lemma ArrivesOrder(s: Sys, s': Sys, dest: Id, u: string, note: Note, sender: Option<(Id, nat)>)
    requires IdsOk(s) && OrderOk(s) && Arrives(s, s', dest, u, note, sender)
    ensures OrderOk(s')
  {
    forall w | w in s'.db ensures InOrder(s'.db[w].inbox) {
      assert InOrder(s.db[w].inbox);
      assert forall v :: v in s.db[w].inbox ==> Within(s, w, v);
      assert forall v, topic :: v != u && Unread(s'.db[w].inbox, topic, v) ==> Unread(s.db[w].inbox, topic, v);
    }
  }

  lemma ArrivesSends(s: Sys, s': Sys, dest: Id, u: string, note: Note, sender: Option<(Id, nat)>)
    requires s.sent.Keys <= s.issued && SendersOwn(s) && SendsSent(s) && Arrives(s, s', dest, u, note, sender)
    ensures SendersOwn(s') && SendsSent(s')
  {
    forall o | o in s'.own && s'.own[o].Send? ensures exists v :: IsSent(s', v, o) {
      if o in s.own {
        var v :| IsSent(s, v, o);
        assert IsSent(s', v, o);
      } else {
        assert IsSent(s', u, o);
      }
    }
  }

  lemma ArrivesSent(s: Sys, s': Sys, dest: Id, u: string, note: Note, sender: Option<(Id, nat)>)
    requires IdsOk(s) && SendersOwn(s) && SentArrived(s) && Arrives(s, s', dest, u, note, sender) && SendersOwn(s')
    requires s'.gone == s.gone
    ensures SentArrived(s')
  {
    PutWithin(s, s', dest, u, note);
  }

  lemma ArrivesTakers(s: Sys, s': Sys, dest: Id, u: string, note: Note, sender: Option<(Id, nat)>)
    requires IdsOk(s) && TakersRecord(s) && OpsGrow(s.db, s'.db)
    requires Arrives(s, s', dest, u, note, sender) && s'.taken == s.taken
    ensures TakersRecord(s')
  {
    forall v | v in s'.taken ensures RecordedBy(s', v, s'.taken[v]) {
      assert RecordedBy(s, v, s.taken[v]);
    }
  }

  lemma ArrivesConsumed(s: Sys, s': Sys, dest: Id, u: string, note: Note, sender: Option<(Id, nat)>)
    requires ConsumedTaken(s) && Arrives(s, s', dest, u, note, sender) && s'.taken == s.taken
    ensures ConsumedTaken(s')
  {
    PutWithin(s, s', dest, u, note);
  }

  /** Checkpoints recorded before keep the message they took. */
  lemma RecvsStillTake(reg: Registry, s: Sys, s': Sys, o: (Id, nat))
    requires OwnOk(reg, s) && RecvsTake(s) && OpsGrow(s.db, s'.db)
    requires o in s.own && s.own[o].Recv? && RecordedSome(s'.db, o)
    requires forall u :: u in s.taken && s.taken[u] == o ==> u in s'.taken && s'.taken[u] == o
    ensures exists u :: IsTaken(s', u, o)
  {
    assert Performed(reg, s.db, o, s.own[o]);
    assert RecordedSome(s.db, o);
    var u :| IsTaken(s, u, o);
    assert IsTaken(s', u, o);
  }

  lemma ArrivesKeeps(reg: Registry, s: Sys, s': Sys, dest: Id, u: string, note: Note, sender: Option<(Id, nat)>)
    requires IdsOk(s) && OwnOk(reg, s) && SentOk(s) && TakenOk(s) && OrderOk(s) && OpsGrow(s.db, s'.db)
    requires Arrives(s, s', dest, u, note, sender)
    requires s'.issued == s.issued + {u} && s'.taken == s.taken && s'.gone == s.gone && s'.now == s.now
    ensures IdsOk(s') && SentOk(s') && TakenOk(s') && OrderOk(s')
  {
    ArrivesIds(s, s', dest, u, note, sender);
    ArrivesOrder(s, s', dest, u, note, sender);
    ArrivesSends(s, s', dest, u, note, sender);
    ArrivesSent(s, s', dest, u, note, sender);
    ArrivesTakers(s, s', dest, u, note, sender);
    ArrivesConsumed(s, s', dest, u, note, sender);
    forall o | o in s'.own && s'.own[o].Recv? && RecordedSome(s'.db, o) ensures exists v :: IsTaken(s', v, o) {
      RecvsStillTake(reg, s, s', o);
    }
  }

  // ---- receiving --------------------------------------------------------------------------------------

  /** Operation `o` consumes the unread message `u` of its topic and records it. */
  ghost predicate Takes(s: Sys, s': Sys, o: (Id, nat), a: Action, u: string) {
    && o.0 in s.db && a.Recv? && Unread(s.db[o.0].inbox, TopicOf(a.topic), u)
    && Puts(s.db, s'.db, o.0, u, s.db[o.0].inbox[u].(consumed := true))
    && o !in s.own && s'.own == s.own[o := a] && o.1 !in s.db[o.0].ops && o.1 in s'.db[o.0].ops
    && s'.db[o.0].ops[o.1] == ReceivedOp(s.db[o.0].inbox[u])
    && s'.taken == s.taken[u := o]
  }

  lemma TakesFresh(s: Sys, s': Sys, o: (Id, nat), a: Action, u: string)
    requires IdsOk(s) && TakersRecord(s) && Takes(s, s', o, a, u)
    ensures Within(s, o.0, u) && u !in s.taken && forall v :: v in s.taken ==> s.taken[v] != o
  {
    assert Within(s, o.0, u);
    assert u in s.taken ==> RecordedBy(s, u, s.taken[u]);
    assert forall v :: v in s.taken ==> RecordedBy(s, v, s.taken[v]);
  }

  lemma TakesOthers(s: Sys, s': Sys, o: (Id, nat), a: Action, u: string)
    requires SentOk(s) && Takes(s, s', o, a, u) && s'.sent == s.sent && s'.gone == s.gone
    ensures SentOk(s')
  {
    assert Within(s, o.0, u);
    PutWithin(s, s', o.0, u, s.db[o.0].inbox[u].(consumed := true));
    forall p | p in s'.own && s'.own[p].Send? ensures exists v :: IsSent(s', v, p) {
      var v :| IsSent(s, v, p);
      assert IsSent(s', v, p);
    }
  }

  lemma TakesIds(s: Sys, s': Sys, o: (Id, nat), a: Action, u: string)
    requires IdsOk(s) && Takes(s, s', o, a, u)
    requires s'.sent == s.sent && s'.issued == s.issued && s'.now == s.now
    ensures IdsOk(s')
  {
    assert Within(s, o.0, u);
    PutWithin(s, s', o.0, u, s.db[o.0].inbox[u].(consumed := true));
  }

  lemma TakesOrder(s: Sys, s': Sys, o: (Id, nat), a: Action, u: string)
    requires OrderOk(s) && Takes(s, s', o, a, u) && IsOldest(s.db[o.0].inbox, TopicOf(a.topic), u)
    ensures OrderOk(s')
  {
    forall w | w in s'.db ensures InOrder(s'.db[w].inbox) {
      assert InOrder(s.db[w].inbox);
      assert forall v, topic :: Unread(s'.db[w].inbox, topic, v) ==> Unread(s.db[w].inbox, topic, v);
    }
  }

  lemma TakesTaker(s: Sys, s': Sys, o: (Id, nat), a: Action, u: string, v: string)
    requires TakersRecord(s) && Takes(s, s', o, a, u) && OpsGrow(s.db, s'.db) && v in s'.taken
    ensures RecordedBy(s', v, s'.taken[v])
  {
    if v != u {
      assert RecordedBy(s, v, s.taken[v]);
    }
  }

  lemma TakesTakers(s: Sys, s': Sys, o: (Id, nat), a: Action, u: string)
    requires IdsOk(s) && TakersRecord(s) && Takes(s, s', o, a, u) && OpsGrow(s.db, s'.db)
    ensures TakersRecord(s')
  {
    TakesFresh(s, s', o, a, u);
    forall v | v in s'.taken ensures RecordedBy(s', v, s'.taken[v]) {
      TakesTaker(s, s', o, a, u, v);
    }
  }

  lemma TakesConsumed(s: Sys, s': Sys, o: (Id, nat), a: Action, u: string)
    requires ConsumedTaken(s) && Takes(s, s', o, a, u) && u !in s.taken
    ensures ConsumedTaken(s')
  {
    PutWithin(s, s', o.0, u, s.db[o.0].inbox[u].(consumed := true));
    forall w, v | Within(s', w, v) && s'.db[w].inbox[v].consumed ensures v in s'.taken && s'.taken[v].0 == w {
      if (w, v) != (o.0, u) {
        assert Within(s, w, v);
      }
    }
  }

  lemma TakesKeeps(reg: Registry, s: Sys, s': Sys, o: (Id, nat), a: Action, u: string)
    requires IdsOk(s) && OwnOk(reg, s) && SentOk(s) && TakenOk(s) && OrderOk(s) && OpsGrow(s.db, s'.db)
    requires Takes(s, s', o, a, u) && IsOldest(s.db[o.0].inbox, TopicOf(a.topic), u)
    requires s'.sent == s.sent && s'.issued == s.issued && s'.gone == s.gone && s'.now == s.now
    ensures IdsOk(s') && SentOk(s') && TakenOk(s') && OrderOk(s')
  {
    TakesIds(s, s', o, a, u);
    TakesOthers(s, s', o, a, u);
    TakesOrder(s, s', o, a, u);
    TakesFresh(s, s', o, a, u);
    TakesTakers(s, s', o, a, u);
    TakesConsumed(s, s', o, a, u);
    TakesRecvs(reg, s, s', o, a, u);
  }

  lemma TakesRecvs(reg: Registry, s: Sys, s': Sys, o: (Id, nat), a: Action, u: string)
    requires OwnOk(reg, s) && u !in s.taken && RecvsTake(s) && OpsGrow(s.db, s'.db)
    requires s'.own == s.own[o := a] && s'.taken == s.taken[u := o]
    ensures RecvsTake(s')
  {
    assert IsTaken(s', u, o);
    forall p | p in s'.own && s'.own[p].Recv? && RecordedSome(s'.db, p) ensures exists v :: IsTaken(s', v, p) {
      if p != o {
        RecvsStillTake(reg, s, s', p);
      }
    }
  }

  // ---- row transactions -------------------------------------------------------------------------------

  lemma RowsWithin(s: Sys, db': Db)
    requires RowFrame(s.db, db', Live(s))
    ensures forall w, u :: Within(Surviving(s, db'), w, u) <==> Within(s, w, u) && w in db'
    ensures forall w :: w in s.db && w in db' ==> db'[w].inbox == s.db[w].inbox && db'[w].ops == s.db[w].ops
    ensures forall w :: w in db' && w !in s.db ==> db'[w].inbox == map[]
  {
  }

  lemma RowsSent(s: Sys, db': Db)
    requires SentOk(s) && RowFrame(s.db, db', Live(s))
    ensures SentOk(Surviving(s, db'))
  {
    var s' := Surviving(s, db');
    RowsWithin(s, db');
    forall o | o in s'.own && s'.own[o].Send? ensures exists u :: IsSent(s', u, o) {
      var u :| IsSent(s, u, o);
      assert IsSent(s', u, o);
    }
    forall u | u in s'.sent && s'.own[s'.sent[u]].dest !in s'.gone ensures Within(s', s'.own[s'.sent[u]].dest, u) {
      assert Within(s, s.own[s.sent[u]].dest, u);
    }
  }

  lemma RowsTakers(s: Sys, db': Db)
    requires TakersRecord(s) && RowFrame(s.db, db', Live(s))
    ensures TakersRecord(Surviving(s, db'))
  {
    var s' := Surviving(s, db');
    forall u | u in s'.taken ensures RecordedBy(s', u, s'.taken[u]) {
      assert RecordedBy(s, u, s.taken[u]);
    }
  }

  lemma RowsRecvs(reg: Registry, s: Sys, db': Db)
    requires OwnOk(reg, s) && RecvsTake(s) && OpsGrow(s.db, db')
    ensures RecvsTake(Surviving(s, db'))
  {
    var s' := Surviving(s, db');
    forall o | o in s'.own && s'.own[o].Recv? && RecordedSome(s'.db, o) ensures exists u :: IsTaken(s', u, o) {
      RecvsStillTake(reg, s, s', o);
    }
  }

  lemma RowsMail(reg: Registry, s: Sys, db': Db)
    requires IdsOk(s) && OwnOk(reg, s) && SentOk(s) && TakenOk(s) && OrderOk(s) && RowFrame(s.db, db', Live(s))
    ensures var s' := Surviving(s, db'); IdsOk(s') && SentOk(s') && TakenOk(s') && OrderOk(s')
  {
    RowsWithin(s, db');
    RowsSent(s, db');
    RowsTakers(s, db');
    RowsRecvs(reg, s, db');
  }

  // ---- the invariant --------------------------------------------------------------------------------

  /** A committed operation is the one its execution asked for. */
  lemma CommitPerforms(reg: Registry, s: Sys, s': Sys, e: nat, o: Outcome)
    requires Inv(reg, s) && Inv(reg, s') && Can(reg, s, e) && CommitPhase(Asked(reg, s, e), s.execs[e].phase)
    requires s'.execs == s.execs[e := AfterTx(s.execs[e], Ok(o))] && Advances(reg, s.db, s'.db)
    requires s.execs[e].wf in s'.db && s.execs[e].slot in s'.db[s.execs[e].wf].ops
    ensures Performed(reg, s'.db, (s.execs[e].wf, s.execs[e].slot), Asked(reg, s, e))
  {
    var x := s.execs[e];
    var y := s'.execs[e];
    assert GoodExec(reg, s.db, x, s.now) && GoodExec(reg, s'.db, y, s'.now);
    var b := BodyOf(reg, s.db[x.wf]);
    TracePrefix(b, s'.db[x.wf].ops, y.hist, |x.hist|);
    assert y.hist[..|x.hist|] == x.hist;
    assert Reads(b, s'.db[x.wf].ops, x.hist, x.slot, b(x.hist));
  }

  /** A deadline row is no operation, unless it is the one of the sleep itself. */
  lemma DeadlineIsNoOperation(b: Body, x: Workflow, h: seq<Outcome>, g: seq<Outcome>, d: nat, a: Action)
    requires Complete(b, x.ops, h) && Trace(b, x.ops, g) && Operation(b, x.ops, d, a)
    requires d == DeadlineSlot(b(g), Pos(b, g)) && (b(g).Sleep? || Slots(b(g)) == 2)
    ensures a == b(g) && a.Sleep?
  {
    var f :| Reads(b, x.ops, f, d, a);
    TraceIsPrefix(b, x.ops, h, f);
    TraceIsPrefix(b, x.ops, h, g);
    if |f| < |g| {
      assert g[..|f|] == f;
      PosMonotone(b, g, |f|);
    } else if |g| < |f| {
      assert f[..|g|] == g;
      PosMonotone(b, f, |g|);
    } else {
      assert f == g;
    }
  }

  /** `o` is the only checkpoint that may be new. */
  ghost predicate AddsOnly(db: Db, db': Db, o: (Id, nat)) {
    && db.Keys <= db'.Keys
    && forall w, i :: w in db' && i in db'[w].ops && (w, i) != o ==> w in db && i in db[w].ops
  }

  lemma ShapeAddsOnly(db: Db, a: Action, w: Id, i: nat, op: Op, tx: Tx<Outcome>)
    requires w in db && Shape(db, a, w, i, op, tx)
    ensures AddsOnly(db, tx.db, (w, i))
    ensures tx.result.Err? ==> forall v :: v in db ==> tx.db[v].ops == db[v].ops
  {
  }

  lemma DeadlineNotPerformed(reg: Registry, s: Sys, s': Sys, e: nat, a: Action)
    requires e in s.execs && e in s'.execs && s'.execs[e].hist == s.execs[e].hist && s'.execs[e].wf == s.execs[e].wf
    requires Inv(reg, s) && Inv(reg, s') && Advances(reg, s.db, s'.db) && s.execs[e].phase.Recording?
    requires Can(reg, s, e)
    requires Performed(reg, s'.db, (s.execs[e].wf, DeadlineSlot(Asked(reg, s, e), s.execs[e].slot)), a)
    ensures a == Asked(reg, s, e) && a.Sleep?
  {
    var x, w := s.execs[e], s.execs[e].wf;
    assert GoodExec(reg, s.db, x, s.now) && GoodExec(reg, s'.db, s'.execs[e], s'.now) && WorkflowOk(reg, s'.db[w]);
    var b := BodyOf(reg, s.db[w]);
    var h :| Frontier(b, s'.db[w], h);
    DeadlineIsNoOperation(b, s'.db[w], h, x.hist, DeadlineSlot(Asked(reg, s, e), x.slot), a);
  }

  lemma DeadlineOwn(reg: Registry, s: Sys, s': Sys, e: nat)
    requires Inv(reg, s) && Inv(reg, s') && Advances(reg, s.db, s'.db) && OwnOk(reg, s) && OwnComplete(reg, s)
    requires Can(reg, s, e) && s.execs[e].phase.Recording? && RecordsDeadline(s, Asked(reg, s, e), e, s')
    ensures OwnOk(reg, s') && OwnComplete(reg, s')
  {
    var o := (s.execs[e].wf, DeadlineSlot(Asked(reg, s, e), s.execs[e].slot));
    assert AddsOnly(s.db, s'.db, o);
    forall a | Performed(reg, s'.db, o, a) ensures a.Sleep? {
      DeadlineNotPerformed(reg, s, s', e, a);
    }
    OwnStays(reg, s, s');
  }

  lemma CommitOwn(reg: Registry, s: Sys, s': Sys, e: nat, o: Outcome)
    requires Inv(reg, s) && Inv(reg, s') && Advances(reg, s.db, s'.db) && OwnOk(reg, s) && OwnComplete(reg, s)
    requires Can(reg, s, e) && CommitPhase(Asked(reg, s, e), s.execs[e].phase)
    requires var x := s.execs[e];
      && AddsOnly(s.db, s'.db, (x.wf, x.slot)) && x.wf in s'.db && x.slot in s'.db[x.wf].ops
      && s'.execs == s.execs[e := AfterTx(x, Ok(o))] && s'.own == s.own[(x.wf, x.slot) := Asked(reg, s, e)]
    ensures OwnOk(reg, s') && OwnComplete(reg, s')
  {
    CommitPerforms(reg, s, s', e, o);
    OwnStays(reg, s, s');
  }

  lemma SameOwn(reg: Registry, s: Sys, s': Sys, o: (Id, nat))
    requires Inv(reg, s) && Inv(reg, s') && Advances(reg, s.db, s'.db) && OwnOk(reg, s) && OwnComplete(reg, s)
    requires AddsOnly(s.db, s'.db, o) && (o.0 in s'.db && o.1 in s'.db[o.0].ops ==> o.0 in s.db && o.1 in s.db[o.0].ops)
    requires s'.own == s.own
    ensures OwnOk(reg, s') && OwnComplete(reg, s')
  {
    OwnStays(reg, s, s');
  }

  lemma NewHasNoOps(db: Db, x: Workflow)
    requires IsNew(db, x) && x.row.forkedFrom.None?
    ensures x.ops == map[]
  {
  }

  lemma RowsOwn(reg: Registry, s: Sys, s': Sys)
    requires Inv(reg, s) && Inv(reg, s') && Advances(reg, s.db, s'.db) && OwnOk(reg, s) && OwnComplete(reg, s)
    requires TablesFrame(s.db, s'.db, Live(s)) && s'.own == Surviving(s, s'.db).own
    ensures OwnOk(reg, s') && OwnComplete(reg, s')
  {
    forall w | w in s'.db && w !in s.db && s'.db[w].row.forkedFrom.None? ensures s'.db[w].ops == map[] {
      NewHasNoOps(s.db, s'.db[w]);
    }
    OwnStays(reg, s, s');
  }

  // ---- one transition ---------------------------------------------------------------------------------

  lemma AdvancesFrom(reg: Registry, s: Sys, l: Label, s': Sys)
    requires Inv(reg, s) && Next(reg, s, l, s')
    ensures Inv(reg, s') && Advances(reg, s.db, s'.db) && OpsGrow(s.db, s'.db)
  {
    NextKeeps(reg, s, l, s');
  }

  lemma NotYetOwn(reg: Registry, s: Sys, o: (Id, nat))
    requires OwnOk(reg, s) && o.0 in s.db && o.1 !in s.db[o.0].ops
    ensures o !in s.own
  {
    assert o in s.own ==> Performed(reg, s.db, o, s.own[o]);
  }

  lemma SendArrives(s: Sys, a: Action, e: nat, c: Choice)
    requires e in s.execs && a.Send? && s.execs[e].phase.Running? && c.uuid !in s.issued
    requires (s.execs[e].wf, s.execs[e].slot) !in s.own
    requires SendTx(s.db, s.execs[e].wf, s.execs[e].slot, a, c.uuid, s.now).result.Ok?
    ensures var s' := Committed(s, a, e, c);
      && Arrives(s, s', a.dest, c.uuid, Note(TopicOf(a.topic), a.message, Some(PORTABLE), s.now, false),
                 Some((s.execs[e].wf, s.execs[e].slot)))
      && s'.issued == s.issued + {c.uuid} && s'.taken == s.taken && s'.gone == s.gone && s'.now == s.now
  {
  }

  lemma RecvTakes(s: Sys, a: Action, e: nat, c: Choice)
    requires e in s.execs && a.Recv? && s.execs[e].phase.Consuming? && s.execs[e].wf in s.db && c.pick.Some?
    requires Unread(s.db[s.execs[e].wf].inbox, TopicOf(a.topic), c.pick.value)
    requires (s.execs[e].wf, s.execs[e].slot) !in s.own
    requires RecvTx(s.db, s.execs[e].wf, s.execs[e].slot, c.pick).result.Ok?
    ensures var s' := Committed(s, a, e, c);
      && Takes(s, s', (s.execs[e].wf, s.execs[e].slot), a, c.pick.value)
      && s'.issued == s.issued && s'.sent == s.sent && s'.gone == s.gone && s'.now == s.now
  {
  }

  lemma RecvMisses(s: Sys, a: Action, e: nat, c: Choice)
    requires e in s.execs && a.Recv? && s.execs[e].phase.Consuming? && s.execs[e].wf in s.db && c.pick.None?
    requires (s.execs[e].wf, s.execs[e].slot) !in s.own
    requires RecvTx(s.db, s.execs[e].wf, s.execs[e].slot, c.pick).result.Ok?
    requires OpsGrow(s.db, Committed(s, a, e, c).db)
    ensures Quiet(s, Committed(s, a, e, c))
  {
    MissTx(s.db, s.execs[e].wf, s.execs[e].slot);
  }

  /** A `recv` that takes nothing leaves every mailbox as it is and records a null output. */
  lemma MissTx(db: Db, w: Id, i: nat)
    requires w in db && RecvTx(db, w, i, None).result.Ok?
    ensures var db' := RecvTx(db, w, i, None).db; InboxesSame(db, db') && !RecordedSome(db', (w, i))
  {
  }

  lemma OtherIsQuiet(s: Sys, a: Action, e: nat, c: Choice)
    requires e in s.execs && CommitPhase(a, s.execs[e].phase) && (a.Step? ==> IsStepResult(c.result))
    requires CommitTx(s.db, a, s.execs[e], c, s.now).result.Ok? ==>
      !a.Send? && !a.Recv? && (s.execs[e].wf, s.execs[e].slot) !in s.own
    requires InboxesSame(s.db, Committed(s, a, e, c).db) && OpsGrow(s.db, Committed(s, a, e, c).db)
    ensures Quiet(s, Committed(s, a, e, c))
  {
  }

  lemma SendMail(reg: Registry, s: Sys, a: Action, e: nat, c: Choice)
    requires IdsOk(s) && OwnOk(reg, s) && SentOk(s) && TakenOk(s) && OrderOk(s)
    requires e in s.execs && a.Send? && s.execs[e].phase.Running? && c.uuid !in s.issued
    requires (s.execs[e].wf, s.execs[e].slot) !in s.own
    requires SendTx(s.db, s.execs[e].wf, s.execs[e].slot, a, c.uuid, s.now).result.Ok?
    requires OpsGrow(s.db, Committed(s, a, e, c).db)
    ensures var s' := Committed(s, a, e, c); IdsOk(s') && SentOk(s') && TakenOk(s') && OrderOk(s')
  {
    SendArrives(s, a, e, c);
    ArrivesKeeps(reg, s, Committed(s, a, e, c), a.dest, c.uuid,
                 Note(TopicOf(a.topic), a.message, Some(PORTABLE), s.now, false),
                 Some((s.execs[e].wf, s.execs[e].slot)));
  }

  lemma RecvMail(reg: Registry, s: Sys, a: Action, e: nat, c: Choice)
    requires IdsOk(s) && OwnOk(reg, s) && SentOk(s) && TakenOk(s) && OrderOk(s)
    requires e in s.execs && a.Recv? && s.execs[e].phase.Consuming? && s.execs[e].wf in s.db
    requires IsPick(s.db[s.execs[e].wf].inbox, TopicOf(a.topic), c.pick)
    requires (s.execs[e].wf, s.execs[e].slot) !in s.own
    requires RecvTx(s.db, s.execs[e].wf, s.execs[e].slot, c.pick).result.Ok?
    requires OpsGrow(s.db, Committed(s, a, e, c).db)
    ensures var s' := Committed(s, a, e, c); IdsOk(s') && SentOk(s') && TakenOk(s') && OrderOk(s')
  {
    match c.pick
    case Some(u) =>
      RecvTakes(s, a, e, c);
      TakesKeeps(reg, s, Committed(s, a, e, c), (s.execs[e].wf, s.execs[e].slot), a, u);
    case None =>
      RecvMisses(s, a, e, c);
      QuietKeeps(reg, s, Committed(s, a, e, c));
  }

  lemma OtherMail(reg: Registry, s: Sys, a: Action, e: nat, c: Choice)
    requires IdsOk(s) && OwnOk(reg, s) && SentOk(s) && TakenOk(s) && OrderOk(s)
    requires e in s.execs && CommitPhase(a, s.execs[e].phase) && (a.Step? ==> IsStepResult(c.result))
    requires CommitTx(s.db, a, s.execs[e], c, s.now).result.Ok? ==>
      !a.Send? && !a.Recv? && (s.execs[e].wf, s.execs[e].slot) !in s.own
    requires OpsGrow(s.db, Committed(s, a, e, c).db)
    ensures var s' := Committed(s, a, e, c); IdsOk(s') && SentOk(s') && TakenOk(s') && OrderOk(s')
  {
    CommitInboxes(s.db, a, s.execs[e], c, s.now);
    OtherIsQuiet(s, a, e, c);
    QuietKeeps(reg, s, Committed(s, a, e, c));
  }

  lemma CommitMail(reg: Registry, s: Sys, a: Action, e: nat, c: Choice, op: Op)
    requires IdsOk(s) && OwnOk(reg, s) && SentOk(s) && TakenOk(s) && OrderOk(s)
    requires Can(reg, s, e) && CommitPhase(a, s.execs[e].phase) && ValidChoice(s, a, s.execs[e], c)
    requires Shape(s.db, a, s.execs[e].wf, s.execs[e].slot, op, CommitTx(s.db, a, s.execs[e], c, s.now))
    requires OpsGrow(s.db, Committed(s, a, e, c).db)
    ensures var s' := Committed(s, a, e, c); IdsOk(s') && SentOk(s') && TakenOk(s') && OrderOk(s')
  {
    var x, o := s.execs[e], (s.execs[e].wf, s.execs[e].slot);
    var ok := CommitTx(s.db, a, x, c, s.now).result.Ok?;
    if ok {
      NotYetOwn(reg, s, o);
    }
    if ok && a.Send? {
      SendMail(reg, s, a, e, c);
    } else if ok && a.Recv? {
      RecvMail(reg, s, a, e, c);
    } else {
      OtherMail(reg, s, a, e, c);
    }
  }

  lemma CommitKeepsOwn(reg: Registry, s: Sys, s': Sys, e: nat, c: Choice, op: Op)
    requires Inv(reg, s) && Inv(reg, s') && Advances(reg, s.db, s'.db) && OwnOk(reg, s) && OwnComplete(reg, s)
    requires Can(reg, s, e) && CommitPhase(Asked(reg, s, e), s.execs[e].phase)
    requires Asked(reg, s, e).Step? ==> IsStepResult(c.result)
    requires s' == Committed(s, Asked(reg, s, e), e, c)
    requires Shape(s.db, Asked(reg, s, e), s.execs[e].wf, s.execs[e].slot, op,
                   CommitTx(s.db, Asked(reg, s, e), s.execs[e], c, s.now))
    ensures OwnOk(reg, s') && OwnComplete(reg, s')
  {
    var a, x := Asked(reg, s, e), s.execs[e];
    var tx := CommitTx(s.db, a, x, c, s.now);
    ShapeAddsOnly(s.db, a, x.wf, x.slot, op, tx);
    if tx.result.Ok? {
      CommitOwn(reg, s, s', e, tx.result.value);
    } else {
      SameOwn(reg, s, s', (x.wf, x.slot));
    }
  }

  lemma CommitKeepsMail(reg: Registry, s: Sys, s': Sys, e: nat, c: Choice)
    requires Inv(reg, s) && Inv(reg, s') && Advances(reg, s.db, s'.db) && OpsGrow(s.db, s'.db) && MailInv(reg, s)
    requires Next(reg, s, Commit(e, c), s')
    ensures MailInv(reg, s')
  {
    var a, x := Asked(reg, s, e), s.execs[e];
    var op := CommitShape(s.db, a, x, c, s.now);
    CommitMail(reg, s, a, e, c, op);
    CommitKeepsOwn(reg, s, s', e, c, op);
  }

  /** Transitions of one execution, or of none, that commit no operation. */
  lemma LocalKeepsMail(reg: Registry, s: Sys, l: Label, s': Sys)
    requires Inv(reg, s) && Inv(reg, s') && Advances(reg, s.db, s'.db) && MailInv(reg, s)
    requires s'.db == s.db && s'.own == s.own && s'.issued == s.issued && s'.sent == s.sent && s'.taken == s.taken
    requires s'.gone == s.gone && s.now <= s'.now
    ensures MailInv(reg, s')
  {
    QuietKeeps(reg, s, s');
    OwnStays(reg, s, s');
  }

  lemma DeadlineIsQuiet(s: Sys, a: Action, e: nat, s': Sys)
    requires e in s.execs && s.execs[e].phase.Recording? && RecordsDeadline(s, a, e, s')
    ensures Quiet(s, s') && s'.own == s.own
  {
    DeadlineInboxes(s.db, s.execs[e].wf, DeadlineSlot(a, s.execs[e].slot), s.execs[e].phase.end);
  }

  lemma DeadlineInboxes(db: Db, w: Id, d: nat, end: int)
    ensures var db' := DeadlineTx(db, w, d, end).db; InboxesSame(db, db') && OpsGrow(db, db')
  {
  }

  lemma DeadlineKeepsMail(reg: Registry, s: Sys, s': Sys, e: nat)
    requires Inv(reg, s) && Inv(reg, s') && Advances(reg, s.db, s'.db) && OpsGrow(s.db, s'.db) && MailInv(reg, s)
    requires Can(reg, s, e) && s.execs[e].phase.Recording? && RecordsDeadline(s, Asked(reg, s, e), e, s')
    ensures MailInv(reg, s')
  {
    DeadlineOwn(reg, s, s', e);
    DeadlineIsQuiet(s, Asked(reg, s, e), e, s');
    QuietKeeps(reg, s, s');
  }

  lemma SameOpsOwn(reg: Registry, s: Sys, s': Sys)
    requires Inv(reg, s) && Inv(reg, s') && Advances(reg, s.db, s'.db) && OwnOk(reg, s) && OwnComplete(reg, s)
    requires s'.own == s.own && s'.db.Keys == s.db.Keys && forall w :: w in s.db ==> s'.db[w].ops == s.db[w].ops
    ensures OwnOk(reg, s') && OwnComplete(reg, s')
  {
    OwnStays(reg, s, s');
  }

  lemma PostArrives(s: Sys, s': Sys, dest: Id, uuid: string, note: Note)
    requires dest in s.db && uuid !in s.issued && !note.consumed && note.createdAt == s.now
    requires s' == s.(db := Deliver(s.db, dest, uuid, note), issued := s.issued + {uuid})
    ensures Arrives(s, s', dest, uuid, note, None)
  {
  }

  lemma PostKeepsMail(reg: Registry, s: Sys, s': Sys, dest: Id, uuid: string, note: Note)
    requires Inv(reg, s) && Inv(reg, s') && Advances(reg, s.db, s'.db) && OpsGrow(s.db, s'.db) && MailInv(reg, s)
    requires dest in s.db && uuid !in s.issued && !note.consumed && note.createdAt == s.now
    requires s' == s.(db := Deliver(s.db, dest, uuid, note), issued := s.issued + {uuid})
    ensures MailInv(reg, s')
  {
    PostArrives(s, s', dest, uuid, note);
    ArrivesKeeps(reg, s, s', dest, uuid, note, None);
    SameOpsOwn(reg, s, s');
  }

  lemma RowsKeepMail(reg: Registry, s: Sys, s': Sys)
    requires Inv(reg, s) && Inv(reg, s') && Advances(reg, s.db, s'.db) && MailInv(reg, s)
    requires RowFrame(s.db, s'.db, Live(s)) && s' == Surviving(s, s'.db)
    ensures MailInv(reg, s')
  {
    RowsMail(reg, s, s'.db);
    RowsOwn(reg, s, s');
  }

  lemma RecordingKeepsMail(reg: Registry, s: Sys, l: Label, s': Sys)
    requires Inv(reg, s) && Inv(reg, s') && Advances(reg, s.db, s'.db) && OpsGrow(s.db, s'.db) && MailInv(reg, s)
    requires Next(reg, s, l, s') && (l.RecordDeadline? || l.Commit?)
    ensures MailInv(reg, s')
  {
    match l
    case RecordDeadline(e) => DeadlineKeepsMail(reg, s, s', e);
    case Commit(e, c) => CommitKeepsMail(reg, s, s', e, c);
  }

  lemma OthersKeepMail(reg: Registry, s: Sys, l: Label, s': Sys)
    requires Inv(reg, s) && Inv(reg, s') && Advances(reg, s.db, s'.db) && OpsGrow(s.db, s'.db) && MailInv(reg, s)
    requires Next(reg, s, l, s') && !l.RecordDeadline? && !l.Commit?
    ensures MailInv(reg, s')
  {
    match l
    case Post(dest, uuid, note) => PostKeepsMail(reg, s, s', dest, uuid, note);
    case Rows(_) => RowsKeepMail(reg, s, s');
    case _ => LocalKeepsMail(reg, s, l, s');
  }

  lemma NextKeepsMail(reg: Registry, s: Sys, l: Label, s': Sys)
    requires Inv(reg, s) && MailInv(reg, s) && Next(reg, s, l, s')
    ensures Inv(reg, s') && MailInv(reg, s')
  {
    AdvancesFrom(reg, s, l, s');
    if l.RecordDeadline? || l.Commit? {
      RecordingKeepsMail(reg, s, l, s');
    } else {
      OthersKeepMail(reg, s, l, s');
    }
  }

  lemma {:induction false} MailRun(reg: Registry, ss: seq<Sys>, ls: seq<Label>, i: nat)
    requires Run(reg, ss, ls) && i < |ss|
    ensures Inv(reg, ss[i]) && MailInv(reg, ss[i])
  {
    if i == 0 {
      RunKeeps(reg, ss, ls, 0);
    } else {
      MailRun(reg, ss, ls, i - 1);
      NextKeepsMail(reg, ss[i - 1], ls[i - 1], ss[i]);
    }
  }

  // ---- theorems -----------------------------------------------------------------------------------------

  /** A workflow that is no fork ran all its operations itself; `own` names each by what its body asked for. */
  lemma OwnIsPerformed(reg: Registry, ss: seq<Sys>, ls: seq<Label>, i: nat, o: (Id, nat), a: Action)
    requires Run(reg, ss, ls) && i < |ss| && Performed(reg, ss[i].db, o, a) && !a.Sleep?
    ensures ss[i].db[o.0].row.forkedFrom.None? ==> o in ss[i].own
    ensures o in ss[i].own ==> ss[i].own[o] == a
  {
    MailRun(reg, ss, ls, i);
    if o in ss[i].own {
      var x := ss[i].db[o.0];
      assert WorkflowOk(reg, x) && Performed(reg, ss[i].db, o, ss[i].own[o]);
      var h :| Frontier(BodyOf(reg, x), x, h);
      OperationUnique(BodyOf(reg, x), x.ops, h, o.1, a, ss[i].own[o]);
    }
  }

  /**
   Exactly-once send: in every reachable state the checkpointed `send`s that workflows ran themselves and
   the messages sent by workflows correspond one to one, and each message waits in the mailbox of its
   destination, as sent, for as long as the destination is not deleted.
   */
  lemma SendExactlyOnce(reg: Registry, ss: seq<Sys>, ls: seq<Label>, i: nat)
    requires Run(reg, ss, ls) && i < |ss|
    ensures forall o :: o in ss[i].own && ss[i].own[o].Send? ==>
      exists u :: IsSent(ss[i], u, o) && forall v :: IsSent(ss[i], v, o) ==> v == u
    ensures forall u, o :: IsSent(ss[i], u, o) ==>
      && o in ss[i].own && ss[i].own[o].Send? && Performed(reg, ss[i].db, o, ss[i].own[o])
      && (ss[i].own[o].dest !in ss[i].gone ==> Within(ss[i], ss[i].own[o].dest, u))
      && (forall w :: Within(ss[i], w, u) ==> w == ss[i].own[o].dest && Carries(ss[i].db[w].inbox[u], ss[i].own[o]))
  {
    MailRun(reg, ss, ls, i);
    var s := ss[i];
    forall o | o in s.own && s.own[o].Send?
      ensures exists u :: IsSent(s, u, o) && forall v :: IsSent(s, v, o) ==> v == u
    {
      var u :| IsSent(s, u, o);
      assert forall v :: IsSent(s, v, o) ==> v == u;
    }
  }

  /** Messages come only from outside the workflows or along with the checkpoint of a `send`. */
  lemma MessagesAreSent(reg: Registry, ss: seq<Sys>, ls: seq<Label>, i: nat, w: Id, u: string)
    requires Run(reg, ss, ls) && i + 1 < |ss| && Within(ss[i + 1], w, u) && !Within(ss[i], w, u)
    ensures (ls[i].Post? && ls[i].dest == w && ls[i].uuid == u) || (ls[i].Commit? && u in ss[i + 1].sent)
  {
    var s, s' := ss[i], ss[i + 1];
    assert Next(reg, s, ls[i], s');
    match ls[i]
    case RecordDeadline(e) => DeadlineIsQuiet(s, Asked(reg, s, e), e, s');
    case Commit(e, c) =>
      var a := Asked(reg, s, e);
      var result := CommitTx(s.db, a, s.execs[e], c, s.now).result;
      if result.Err? || (!a.Send? && !a.Recv?) {
        CommitInboxes(s.db, a, s.execs[e], c, s.now);
      }
    case _ =>
  }

  /**
   Mailbox conservation: in every reachable state the consumed messages of a workflow correspond one to one
   with the `recv` rows of non-null output it recorded itself, each holding its message; and
   no consumed message is newer than an unread one of its topic.
   */
  lemma MailboxConservation(reg: Registry, ss: seq<Sys>, ls: seq<Label>, i: nat, w: Id)
    requires Run(reg, ss, ls) && i < |ss| && w in ss[i].db
    ensures var s := ss[i];
      && (forall u :: Within(s, w, u) && s.db[w].inbox[u].consumed ==>
            u in s.taken && s.taken[u].0 == w && RecordedBy(s, u, s.taken[u]))
      && (forall n: nat :: (w, n) in s.own && s.own[(w, n)].Recv? && RecordedSome(s.db, (w, n)) ==>
            exists u ::
              IsTaken(s, u, (w, n)) && RecordedBy(s, u, (w, n)) && forall v :: IsTaken(s, v, (w, n)) ==> v == u)
      && InOrder(s.db[w].inbox)
  {
    MailRun(reg, ss, ls, i);
    var s := ss[i];
    forall n: nat | (w, n) in s.own && s.own[(w, n)].Recv? && RecordedSome(s.db, (w, n))
      ensures exists u ::
        IsTaken(s, u, (w, n)) && RecordedBy(s, u, (w, n)) && forall v :: IsTaken(s, v, (w, n)) ==> v == u
    {
      var u :| IsTaken(s, u, (w, n));
      assert RecordedBy(s, u, s.taken[u]);
      assert forall v :: IsTaken(s, v, (w, n)) ==> v == u;
    }
  }

  /** The message a `recv` got: its own text in its own format, or in the default one. */
  function MessageOf(note: Note): Outcome {
    Value(Some(Text(note.message)), if note.format == None then Some("portable_json") else note.format)
  }

  /** First time and on every replay, a `recv` that took a message returns exactly that message. */
  lemma RecvReplaysSame(reg: Registry, ss: seq<Sys>, ls: seq<Label>, i: nat, j: nat, w: Id, u: string, e: nat, k: nat)
    requires Run(reg, ss, ls) && Lives(ss, w, i, j) && Executing(ss, i, e, w) && k < |ss[i].execs[e].hist|
    requires BodyOf(reg, ss[j].db[w])(ss[i].execs[e].hist[..k]).Recv?
    requires IsTaken(ss[j], u, (w, Pos(BodyOf(reg, ss[j].db[w]), ss[i].execs[e].hist[..k])))
    ensures Within(ss[j], w, u) && ss[i].execs[e].hist[k] == MessageOf(ss[j].db[w].inbox[u])
  {
    MailRun(reg, ss, ls, j);
    ReplaySeesRecorded(reg, ss, ls, w, i, j, e, k);
    assert RecordedBy(ss[j], u, ss[j].taken[u]);
  }
}
