/**
 What the row locks of overlapping dequeues do not give: for every global cap of one or more, a run of statements
 from an empty database in which two dequeues commit and exceed it.
 */
module ClaimOverlaps {
  import opened Wrappers
  import opened Tables
  import opened Queue
  import opened ClaimLocks

  /** A run of the queue "q" in which only the turns may be out of order. */
  ghost predicate CappedRun(ss: seq<State>, ls: seq<Label>, n: nat) {
    Run(ss, ls) && AllCapped(ls, "q", None, n) && OnlyDequeuesStart(ss, ls, "q", None)
  }

  lemma RunExtends(ss: seq<State>, ls: seq<Label>, n: nat, l: Label, s: State)
    requires CappedRun(ss, ls, n) && Next(ss[|ls|], l, s) && (l.Write? || IsStatement(l, n))
    requires l.Write? ==> Running(s.db, "q", None) <= Running(ss[|ls|].db, "q", None)
    ensures CappedRun(ss + [s], ls + [l], n)
  {
    var ss', ls' := ss + [s], ls + [l];
    forall i | 0 <= i < |ls'|
      ensures Next(ss'[i], ls'[i], ss'[i + 1])
      ensures ls'[i].Write? ==> Running(ss'[i + 1].db, "q", None) <= Running(ss'[i].db, "q", None)
    {
      if i < |ls| {
        assert Next(ss[i], ls[i], ss[i + 1]);
      }
    }
  }

  /** A workflow waiting in "q" for an executor of one application version. */
  function Waiter(version: string): Workflow {
    Unstarted(Row(Enqueued, "f", None, Some("q"), None, None, Some(version), 0, 0, 0, None, None, None, None, None, 0,
                  None, None, None, None, false, None, false))
  }

  /** An executor of that version, polling for one task under the cap. */
  function Poller(version: string, n: nat): DequeueInput {
    DequeueInput("q", "e", version, None, 0, None, Some(n), 1, None)
  }

  /** The dequeue of the only candidate `id`: begun, locked, claimed. */
  function Begun(r: DequeueInput, s: State): Txn {
    Txn(r, 0, s.db, s.versions, [], {}, 0, [])
  }

  function Locking(r: DequeueInput, s: State, id: Id): Txn {
    Begun(r, s).(locked := [id])
  }

  function Claiming(r: DequeueInput, s: State, id: Id): Txn {
    Begun(r, s).(locked := [id], tried := 1, claimed := [id])
  }

  ghost predicate OnlyCandidate(s: State, r: DequeueInput, id: Id) {
    && id in s.db && id in s.versions && r.rate.None? && r.global.Some?
    && Eligible(s.db, r) == {id} && TaskAllowance(s.db, r) == 1
  }

  lemma LockOnly(s: State, t: nat, r: DequeueInput, id: Id)
    requires t in s.txs && s.txs[t] == Begun(r, s) && OnlyCandidate(s, r, id) && id !in s.locks
    ensures Next(s, Lock(t, id), s.(locks := s.locks[id := t], txs := s.txs[t := Locking(r, s, id)]))
  {
    var x := Begun(r, s);
    assert Ahead(x) == {id} && IsNext(x, id) && MayLock(s, x, id);
    assert x.locked + [id] == [id];
  }

  lemma ClaimOnly(s: State, t: nat, r: DequeueInput, s0: State, id: Id)
    requires t in s.txs && s.txs[t] == Locking(r, s0, id) && OnlyCandidate(s0, r, id) && IsEnqueued(s.db, id)
    ensures Next(s, Claim(t), s.(txs := s.txs[t := Claiming(r, s0, id)]))
  {
    var x := s.txs[t];
    assert x.snapshot == s0.db && |x.locked| == 1 && x.locked[0] == id;
    assert Selected(x) && !UsedUp(x) && x.tried < |x.locked|;
    var y := Claiming(r, s0, id);
    assert Tried(s.db, x).claimed == y.claimed;
    assert Tried(s.db, x) == y;
    assert s.txs[t := Tried(s.db, x)] == s.txs[t := y];
  }

  lemma CommitOnly(s: State, t: nat, r: DequeueInput, s0: State, id: Id)
    requires t in s.txs && s.txs[t] == Claiming(r, s0, id) && OnlyCandidate(s0, r, id)
    ensures Next(s, Commit(t, 0), Committed(s, t, 0))
  {
    var x := s.txs[t];
    assert x.snapshot == s0.db && |x.locked| == 1 && |x.claimed| == 1;
    assert Selected(x);
  }

  /** `k` claimed workflows, nothing waiting, nothing in flight. */
  ghost predicate Busy(s: State, k: nat) {
    && s.locks == map[] && s.txs == map[] && |s.db| == k
    && forall id :: id in s.db ==>
      id in s.versions && |id| < k && s.db[id].row.status.Pending? && s.db[id].row.queue == Some("q")
  }

  function Name(k: nat): (id: Id)
    ensures |id| == k
  {
    seq(k, _ => 'x')
  }

  /** The workflow `id` arrives. */
  function Arrived(s: State, id: Id, version: string): State {
    s.(db := s.db[id := Waiter(version)], versions := s.versions[id := s.clock], clock := s.clock + 1)
  }

  lemma BusyRunning(s: State, k: nat)
    requires Busy(s, k)
    ensures Running(s.db, "q", None) == s.db.Keys && |Running(s.db, "q", None)| == k
  {
    assert Running(s.db, "q", None) == s.db.Keys;
  }

  /** One arrival into a busy queue with a free slot is the only candidate of its version. */
  lemma ArrivedOnly(s: State, k: nat, n: nat)
    requires Busy(s, k) && k < n
    ensures var s1 := Arrived(s, Name(k), "1");
      && Next(s, Write(Name(k), Some(Waiter("1"))), s1) && OnlyCandidate(s1, Poller("1", n), Name(k))
      && Running(s1.db, "q", None) == Running(s.db, "q", None) && s1.locks == map[] && s1.txs == map[]
  {
    var s1 := Arrived(s, Name(k), "1");
    BusyRunning(s, k);
    assert Eligible(s1.db, Poller("1", n)) == {Name(k)};
    assert Running(s1.db, "q", None) == Running(s.db, "q", None);
  }

  function Reached(s: State, ss: seq<State>, i: nat): State
    requires i <= |ss|
  {
    if i == 0 then s else ss[i - 1]
  }

  /** Steps of one dequeue under the cap. */
  ghost predicate Leads(s: State, ls: seq<Label>, ss: seq<State>, n: nat) {
    && |ss| == |ls|
    && (forall i :: 0 <= i < |ls| ==> Next(Reached(s, ss, i), ls[i], Reached(s, ss, i + 1)))
    && forall i :: 0 <= i < |ls| ==> IsStatement(ls[i], n)
  }

  /** A statement of a capped dequeue. */
  predicate IsStatement(l: Label, n: nat) {
    !l.Write? && (l.Begin? ==> l.request.global == Some(n) && l.request.partition.None?)
  }

  lemma LeadsTwo(s: State, l: Label, s1: State, m: Label, s2: State, n: nat)
    requires Next(s, l, s1) && Next(s1, m, s2) && IsStatement(l, n) && IsStatement(m, n)
    ensures Leads(s, [l, m], [s1, s2], n)
  {
  }

  lemma LeadsFour(
    s: State, k: Label, s1: State, l: Label, s2: State, m: Label, s3: State, o: Label, s4: State, n: nat)
    returns (ls: seq<Label>, ss: seq<State>)
    requires Next(s, k, s1) && Next(s1, l, s2) && Next(s2, m, s3) && Next(s3, o, s4)
    requires IsStatement(k, n) && IsStatement(l, n) && IsStatement(m, n) && IsStatement(o, n)
    ensures |ls| == 4 && Leads(s, ls, ss, n) && ss[3] == s4
  {
    LeadsTwo(s, k, s1, l, s2, n);
    LeadsTwo(s2, m, s3, o, s4, n);
    LeadsJoin(s, [k, l], [s1, s2], [m, o], [s3, s4], n);
    ls, ss := [k, l] + [m, o], [s1, s2] + [s3, s4];
  }

  lemma LeadsJoin(s: State, ls: seq<Label>, ss: seq<State>, ls1: seq<Label>, ss1: seq<State>, n: nat)
    requires Leads(s, ls, ss, n) && Leads(Reached(s, ss, |ls|), ls1, ss1, n)
    ensures Leads(s, ls + ls1, ss + ss1, n)
  {
    var all := ss + ss1;
    forall i | 0 <= i < |ls + ls1| ensures Next(Reached(s, all, i), (ls + ls1)[i], Reached(s, all, i + 1)) {
      if i < |ls| {
        assert Next(Reached(s, ss, i), ls[i], Reached(s, ss, i + 1));
      } else {
        var u := Reached(s, ss, |ls|);
        assert Next(Reached(u, ss1, i - |ls|), ls1[i - |ls|], Reached(u, ss1, i - |ls| + 1));
      }
    }
  }

  lemma LeadsPrefix(s: State, ls: seq<Label>, ss: seq<State>, n: nat, m: nat)
    requires Leads(s, ls, ss, n) && m <= |ls|
    ensures Leads(s, ls[..m], ss[..m], n) && Reached(s, ss[..m], m) == Reached(s, ss, m)
  {
    forall i | 0 <= i < m ensures Next(Reached(s, ss[..m], i), ls[..m][i], Reached(s, ss[..m], i + 1)) {
      assert Next(Reached(s, ss, i), ls[i], Reached(s, ss, i + 1));
    }
  }

  lemma {:induction false} StepsExtend(ss: seq<State>, ls: seq<Label>, n: nat, ls1: seq<Label>, ss1: seq<State>)
    requires CappedRun(ss, ls, n) && Leads(ss[|ls|], ls1, ss1, n)
    ensures CappedRun(ss + ss1, ls + ls1, n) && (ss + ss1)[|ls + ls1|] == Reached(ss[|ls|], ss1, |ls1|)
    decreases |ls1|
  {
    if ls1 == [] {
      assert ss + ss1 == ss && ls + ls1 == ls;
    } else {
      var m := |ls1| - 1;
      LeadsPrefix(ss[|ls|], ls1, ss1, n, m);
      StepsExtend(ss, ls, n, ls1[..m], ss1[..m]);
      assert Next(Reached(ss[|ls|], ss1, m), ls1[m], Reached(ss[|ls|], ss1, m + 1));
      RunExtends(ss + ss1[..m], ls + ls1[..m], n, ls1[m], ss1[m]);
      assert ss + ss1 == ss + ss1[..m] + [ss1[m]] && ls + ls1 == ls + ls1[..m] + [ls1[m]];
    }
  }

  lemma SoloMoves(s1: State, r: DequeueInput, id: Id, s2: State, s3: State, s4: State)
    requires OnlyCandidate(s1, r, id) && s1.locks == map[] && s1.txs == map[]
    requires s2 == s1.(txs := map[0 := Begun(r, s1)])
    requires s3 == s1.(locks := map[id := 0], txs := map[0 := Locking(r, s1, id)])
    requires s4 == s3.(txs := map[0 := Claiming(r, s1, id)])
    ensures Next(s1, Begin(0, r, 0), s2) && Next(s2, Lock(0, id), s3) && Next(s3, Claim(0), s4)
    ensures Next(s4, Commit(0, 0), Committed(s4, 0, 0))
  {
    CandidateWaits(s1, r, id);
    LockOnly(s2, 0, r, id);
    assert s2.txs[0 := Locking(r, s1, id)] == s3.txs && s2.locks[id := 0] == s3.locks;
    ClaimOnly(s3, 0, r, s1, id);
    assert s3.txs[0 := Claiming(r, s1, id)] == s4.txs;
    CommitOnly(s4, 0, r, s1, id);
  }

  /** The steps of a dequeue that claims its only candidate. */
  lemma SoloSteps(s1: State, r: DequeueInput, id: Id, n: nat) returns (ls: seq<Label>, ss: seq<State>)
    requires OnlyCandidate(s1, r, id) && s1.locks == map[] && s1.txs == map[]
    requires r.global == Some(n) && r.partition.None?
    ensures |ls| == 4 && Leads(s1, ls, ss, n)
    ensures ss[3].db == ClaimRows(s1.db, [id], r, 0) && ss[3].versions.Keys == s1.versions.Keys
    ensures ss[3].locks == map[] && ss[3].txs == map[]
  {
    var s2 := s1.(txs := map[0 := Begun(r, s1)]);
    var s3 := s1.(locks := map[id := 0], txs := map[0 := Locking(r, s1, id)]);
    var s4 := s3.(txs := map[0 := Claiming(r, s1, id)]);
    SoloMoves(s1, r, id, s2, s3, s4);
    var s5 := Committed(s4, 0, 0);
    ls, ss := LeadsFour(s1, Begin(0, r, 0), s2, Lock(0, id), s3, Claim(0), s4, Commit(0, 0), s5, n);
  }

  lemma FilledBusy(s: State, k: nat, n: nat, s5: State)
    requires Busy(s, k) && s5.locks == map[] && s5.txs == map[]
    requires s5.db == ClaimRows(Arrived(s, Name(k), "1").db, [Name(k)], Poller("1", n), 0)
    requires s5.versions.Keys == Arrived(s, Name(k), "1").versions.Keys
    ensures Busy(s5, k + 1)
  {
    assert s5.db.Keys == s.db.Keys + {Name(k)};
    forall id | id in s5.db
      ensures id in s5.versions && |id| < k + 1 && s5.db[id].row.status.Pending? && s5.db[id].row.queue == Some("q")
    {
      if id != Name(k) {
        assert s5.db[id] == s.db[id];
      }
    }
  }

  /** A dequeue that claims a new arrival alone. */
  lemma FillOne(ss: seq<State>, ls: seq<Label>, k: nat, n: nat) returns (ss': seq<State>, ls': seq<Label>)
    requires CappedRun(ss, ls, n) && Busy(ss[|ls|], k) && k < n
    ensures CappedRun(ss', ls', n) && Busy(ss'[|ls'|], k + 1)
  {
    var s1, l1 := Arrived(ss[|ls|], Name(k), "1"), Write(Name(k), Some(Waiter("1")));
    ArrivedOnly(ss[|ls|], k, n);
    RunExtends(ss, ls, n, l1, s1);
    var more, states := SoloSteps(s1, Poller("1", n), Name(k), n);
    StepsExtend(ss + [s1], ls + [l1], n, more, states);
    FilledBusy(ss[|ls|], k, n, states[3]);
    ss', ls' := ss + [s1] + states, ls + [l1] + more;
  }

  lemma {:induction false} Fill(k: nat, n: nat) returns (ss: seq<State>, ls: seq<Label>)
    requires k <= n
    ensures CappedRun(ss, ls, n) && Busy(ss[|ls|], k)
  {
    if k == 0 {
      ss, ls := [State(map[], map[], 0, map[], map[])], [];
    } else {
      ss, ls := Fill(k - 1, n);
      ss, ls := FillOne(ss, ls, k - 1, n);
    }
  }

  /** A second arrival, for executors of another version. */
  lemma BothArrived(s: State, k: nat)
    requires Busy(s, k)
    ensures var s1, s2 := Arrived(s, Name(k), "1"), Arrived(Arrived(s, Name(k), "1"), Name(k + 1), "2");
      && Next(s1, Write(Name(k + 1), Some(Waiter("2"))), s2) && s2.locks == map[] && s2.txs == map[]
      && OnlyCandidate(s2, Poller("1", k + 1), Name(k)) && OnlyCandidate(s2, Poller("2", k + 1), Name(k + 1))
      && Running(s2.db, "q", None) == Running(s1.db, "q", None) == Running(s.db, "q", None)
  {
    var s1, s2 := Arrived(s, Name(k), "1"), Arrived(Arrived(s, Name(k), "1"), Name(k + 1), "2");
    BusyRunning(s, k);
    WaitersDoNotRun(s, Name(k), "1");
    assert Name(k + 1) !in s1.db;
    WaitersDoNotRun(s1, Name(k + 1), "2");
    OnlyTheirs(s, k, "1", Poller("1", k + 1));
    OnlyTheirs(s, k, "2", Poller("2", k + 1));
  }

  lemma WaitersDoNotRun(s: State, id: Id, version: string)
    requires id !in s.db
    ensures Running(Arrived(s, id, version).db, "q", None) == Running(s.db, "q", None)
  {
  }

  /** An executor sees the one arrival of its version. */
  lemma OnlyTheirs(s: State, k: nat, version: string, r: DequeueInput)
    requires Busy(s, k) && (version == "1" || version == "2") && r == Poller(version, k + 1)
    ensures var s2 := Arrived(Arrived(s, Name(k), "1"), Name(k + 1), "2");
      Eligible(s2.db, r) == {if version == "1" then Name(k) else Name(k + 1)}
  {
    var s2 := Arrived(Arrived(s, Name(k), "1"), Name(k + 1), "2");
    forall id | id in s2.db && id != Name(k) && id != Name(k + 1) ensures !IsEligible(s2.db[id].row, r) {
      assert s2.db[id] == s.db[id];
    }
  }

  function Both(x: Txn, y: Txn): map<nat, Txn> {
    map[1 := x, 2 := y]
  }

  /** Two dequeues with one snapshot, up to their claims. */
  lemma OverlapClaims(s: State, r: DequeueInput, a: Id, q: DequeueInput, b: Id, n: nat)
    returns (ls: seq<Label>, ss: seq<State>)
    requires OnlyCandidate(s, r, a) && OnlyCandidate(s, q, b) && a != b && s.locks == map[] && s.txs == map[]
    requires r.global == Some(n) && r.partition.None? && q.global == Some(n) && q.partition.None?
    ensures |ls| == 6 && Leads(s, ls, ss, n)
    ensures ss[5] == s.(locks := map[a := 1, b := 2], txs := Both(Claiming(r, s, a), Claiming(q, s, b)))
  {
    var s1 := s.(txs := map[1 := Begun(r, s)]);
    var s2 := s.(txs := Both(Begun(r, s), Begun(q, s)));
    var s3 := s.(locks := map[a := 1], txs := Both(Locking(r, s, a), Begun(q, s)));
    var s4 := s.(locks := map[a := 1, b := 2], txs := Both(Locking(r, s, a), Locking(q, s, b)));
    var s5 := s4.(txs := Both(Claiming(r, s, a), Locking(q, s, b)));
    var s6 := s4.(txs := Both(Claiming(r, s, a), Claiming(q, s, b)));
    OverlapBegins(s, r, q, s1, s2);
    OverlapLocks(s, r, a, q, b, s2, s3, s4);
    OverlapUpdates(s, r, a, q, b, s4, s5, s6);
    LeadsTwo(s, Begin(1, r, 0), s1, Begin(2, q, 0), s2, n);
    LeadsTwo(s2, Lock(1, a), s3, Lock(2, b), s4, n);
    LeadsTwo(s4, Claim(1), s5, Claim(2), s6, n);
    LeadsJoin(s, [Begin(1, r, 0), Begin(2, q, 0)], [s1, s2], [Lock(1, a), Lock(2, b)], [s3, s4], n);
    ls, ss := [Begin(1, r, 0), Begin(2, q, 0)] + [Lock(1, a), Lock(2, b)], [s1, s2] + [s3, s4];
    LeadsJoin(s, ls, ss, [Claim(1), Claim(2)], [s5, s6], n);
    ls, ss := ls + [Claim(1), Claim(2)], ss + [s5, s6];
  }

  lemma OverlapUpdates(s: State, r: DequeueInput, a: Id, q: DequeueInput, b: Id, s4: State, s5: State, s6: State)
    requires OnlyCandidate(s, r, a) && OnlyCandidate(s, q, b)
    requires s4 == s.(locks := map[a := 1, b := 2], txs := Both(Locking(r, s, a), Locking(q, s, b)))
    requires s5 == s4.(txs := Both(Claiming(r, s, a), Locking(q, s, b)))
    requires s6 == s4.(txs := Both(Claiming(r, s, a), Claiming(q, s, b)))
    ensures Next(s4, Claim(1), s5) && Next(s5, Claim(2), s6)
  {
    CandidateWaits(s, r, a);
    CandidateWaits(s, q, b);
    BothPut(Locking(r, s, a), Locking(q, s, b), Claiming(r, s, a));
    BothPut(Claiming(r, s, a), Locking(q, s, b), Claiming(q, s, b));
    ClaimOnly(s4, 1, r, s, a);
    ClaimOnly(s5, 2, q, s, b);
  }

  lemma BothPut(x: Txn, y: Txn, z: Txn)
    ensures Both(x, y)[1 := z] == Both(z, y) && Both(x, y)[2 := z] == Both(x, z)
  {
  }

  lemma CandidateWaits(s: State, r: DequeueInput, id: Id)
    requires OnlyCandidate(s, r, id)
    ensures IsEnqueued(s.db, id)
  {
    assert id in Eligible(s.db, r);
  }

  lemma OverlapBegins(s: State, r: DequeueInput, q: DequeueInput, s1: State, s2: State)
    requires s.txs == map[] && s1 == s.(txs := map[1 := Begun(r, s)]) && s2 == s.(txs := Both(Begun(r, s), Begun(q, s)))
    ensures Next(s, Begin(1, r, 0), s1) && Next(s1, Begin(2, q, 0), s2)
  {
  }

  lemma OverlapLocks(s: State, r: DequeueInput, a: Id, q: DequeueInput, b: Id, s2: State, s3: State, s4: State)
    requires OnlyCandidate(s, r, a) && OnlyCandidate(s, q, b) && a != b && s.locks == map[]
    requires s2 == s.(txs := Both(Begun(r, s), Begun(q, s)))
    requires s3 == s.(locks := map[a := 1], txs := Both(Locking(r, s, a), Begun(q, s)))
    requires s4 == s.(locks := map[a := 1, b := 2], txs := Both(Locking(r, s, a), Locking(q, s, b)))
    ensures Next(s2, Lock(1, a), s3) && Next(s3, Lock(2, b), s4)
  {
    BothPut(Begun(r, s), Begun(q, s), Locking(r, s, a));
    BothPut(Locking(r, s, a), Begun(q, s), Locking(q, s, b));
    LockOnly(s2, 1, r, a);
    assert s2.locks[a := 1] == s3.locks;
    LockOnly(s3, 2, q, b);
    assert s3.locks[b := 2] == s4.locks;
  }

  lemma OverlapCommits(s: State, s0: State, r: DequeueInput, a: Id, q: DequeueInput, b: Id, n: nat)
    returns (ls: seq<Label>, ss: seq<State>)
    requires OnlyCandidate(s0, r, a) && OnlyCandidate(s0, q, b) && a != b
    requires s == s0.(locks := map[a := 1, b := 2], txs := Both(Claiming(r, s0, a), Claiming(q, s0, b)))
    ensures |ls| == 2 && Leads(s, ls, ss, n)
    ensures ss[1].db == ClaimRows(ClaimRows(s0.db, [a], r, 0), [b], q, 0)
  {
    var s1 := Committed(s, 1, 0);
    CommitOnly(s, 1, r, s0, a);
    assert s1.txs[2] == Claiming(q, s0, b);
    CommitOnly(s1, 2, q, s0, b);
    ls, ss := [Commit(1, 0), Commit(2, 0)], [s1, Committed(s1, 2, 0)];
    LeadsTwo(s, Commit(1, 0), s1, Commit(2, 0), Committed(s1, 2, 0), n);
  }

  lemma OverlapRuns(db: Db, a: Id, b: Id, r: DequeueInput, q: DequeueInput)
    requires a in db && b in db && a != b && a !in Running(db, "q", None) && b !in Running(db, "q", None)
    requires db[a].row.queue == Some("q") && db[b].row.queue == Some("q")
    ensures |Running(ClaimRows(ClaimRows(db, [a], r, 0), [b], q, 0), "q", None)| == |Running(db, "q", None)| + 2
  {
    OneMoreRuns(db, a, r);
    OneMoreRuns(ClaimRows(db, [a], r, 0), b, q);
  }

  lemma OneMoreRuns(db: Db, a: Id, r: DequeueInput)
    requires a in db && a !in Running(db, "q", None) && db[a].row.queue == Some("q")
    ensures Running(ClaimRows(db, [a], r, 0), "q", None) == Running(db, "q", None) + {a}
  {
  }

  /**
   The locks alone do not keep a cap of one or more: two dequeues, by executors of different application versions, take
   their snapshots while one slot is free, lock different rows, and both commit.
   */
  lemma LocksDoNotCap(n: nat) returns (ss: seq<State>, ls: seq<Label>)
    requires n > 0
    ensures CappedRun(ss, ls, n) && |Running(ss[|ls|].db, "q", None)| == n + 1
  {
    ss, ls := Fill(n - 1, n);
    ss, ls := TwoArrive(ss, ls, n - 1);
    ss, ls := Overlap(ss, ls, Name(n - 1), Name(n), n);
  }

  lemma TwoArrive(ss: seq<State>, ls: seq<Label>, k: nat) returns (ss': seq<State>, ls': seq<Label>)
    requires CappedRun(ss, ls, k + 1) && Busy(ss[|ls|], k)
    ensures CappedRun(ss', ls', k + 1) && ss'[|ls'|].locks == map[] && ss'[|ls'|].txs == map[]
    ensures OnlyCandidate(ss'[|ls'|], Poller("1", k + 1), Name(k))
    ensures OnlyCandidate(ss'[|ls'|], Poller("2", k + 1), Name(k + 1))
    ensures |Running(ss'[|ls'|].db, "q", None)| == k
  {
    var s := ss[|ls|];
    var s1, s2 := Arrived(s, Name(k), "1"), Arrived(Arrived(s, Name(k), "1"), Name(k + 1), "2");
    var l1, l2 := Write(Name(k), Some(Waiter("1"))), Write(Name(k + 1), Some(Waiter("2")));
    ArrivedOnly(s, k, k + 1);
    BothArrived(s, k);
    BusyRunning(s, k);
    RunExtends(ss, ls, k + 1, l1, s1);
    RunExtends(ss + [s1], ls + [l1], k + 1, l2, s2);
    ss', ls' := ss + [s1] + [s2], ls + [l1] + [l2];
  }

  lemma Overlap(ss: seq<State>, ls: seq<Label>, a: Id, b: Id, n: nat) returns (ss': seq<State>, ls': seq<Label>)
    requires CappedRun(ss, ls, n) && a != b && ss[|ls|].locks == map[] && ss[|ls|].txs == map[]
    requires OnlyCandidate(ss[|ls|], Poller("1", n), a) && OnlyCandidate(ss[|ls|], Poller("2", n), b)
    ensures CappedRun(ss', ls', n)
    ensures |Running(ss'[|ls'|].db, "q", None)| == |Running(ss[|ls|].db, "q", None)| + 2
  {
    var s, r, q := ss[|ls|], Poller("1", n), Poller("2", n);
    assert a in Eligible(s.db, r) && b in Eligible(s.db, q);
    var ls1, ss1 := OverlapClaims(s, r, a, q, b, n);
    StepsExtend(ss, ls, n, ls1, ss1);
    var ls2, ss2 := OverlapCommits(ss1[5], s, r, a, q, b, n);
    StepsExtend(ss + ss1, ls + ls1, n, ls2, ss2);
    OverlapRuns(s.db, a, b, r, q);
    ss', ls' := ss + ss1 + ss2, ls + ls1 + ls2;
  }

  /** Whatever overlaps, no run exceeds the cap. */
  ghost predicate AlwaysCapped(n: nat) {
    forall ss: seq<State>, ls: seq<Label> {:trigger CappedRun(ss, ls, n)} :: CappedRun(ss, ls, n) ==>
      forall i :: 0 <= i < |ss| ==> |Running(ss[i].db, "q", None)| <= n
  }

  lemma {:induction false} NothingRuns(ss: seq<State>, ls: seq<Label>, i: nat)
    requires CappedRun(ss, ls, 0) && i < |ss|
    ensures Running(ss[i].db, "q", None) == {}
  {
    if i > 0 {
      NothingRuns(ss, ls, i - 1);
      RunningGrows(ss, ls, i - 1, "q", None, 0);
      if CommitsIn(ss, ls, i - 1, "q", None) {
        NothingClaimed(ss, ls, i - 1);
      }
    }
  }

  lemma NothingClaimed(ss: seq<State>, ls: seq<Label>, i: nat)
    requires CappedRun(ss, ls, 0) && i < |ls| && CommitsIn(ss, ls, i, "q", None)
    ensures ss[i].txs[ls[i].t].claimed == []
  {
    var b := ClaimedEligible(ss, ls, i);
  }

  /** Without taking turns the locks keep exactly the cap that lets nothing run. */
  lemma LocksCapOnlyZero(n: nat)
    ensures AlwaysCapped(n) <==> n == 0
  {
    if n == 0 {
      forall ss: seq<State>, ls: seq<Label> | CappedRun(ss, ls, n)
        ensures forall i :: 0 <= i < |ss| ==> |Running(ss[i].db, "q", None)| <= n
      {
        forall i | 0 <= i < |ss| ensures |Running(ss[i].db, "q", None)| <= n {
          NothingRuns(ss, ls, i);
        }
      }
    } else {
      var ss, ls := LocksDoNotCap(n);
      assert CappedRun(ss, ls, n) && |Running(ss[|ls|].db, "q", None)| > n;
    }
  }
}
