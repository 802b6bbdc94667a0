/**
 The in-memory worker counters of one queue's runner: its single poll loop reads a counter, dequeues with
 what it read, and dispatches the claimed workflows one by one, while dispatched bodies finish at any time.
 */
module Workers {
  import opened Wrappers
  import opened Tables
  import opened Queue

  type CountKey = (string, string)

  function KeyOf(queue: string, partition: Option<string>): CountKey {
    (queue, if partition.Some? then partition.value else "")
  }

  function CountOf(counts: map<CountKey, int>, key: CountKey): int {
    if key in counts then counts[key] else 0
  }

  function Inc(counts: map<CountKey, int>, key: CountKey): map<CountKey, int> {
    counts[key := CountOf(counts, key) + 1]
  }

  function Dec(counts: map<CountKey, int>, key: CountKey): map<CountKey, int> {
    if key in counts then counts[key := counts[key] - 1] else counts
  }

  /** The map of counters; a counter is created by its first increment and never removed. */
  class WorkerCounts {
    var counts: map<CountKey, int>

    constructor ()
      ensures counts == map[]
    {
      counts := map[];
    }

    method WorkerCount(queue: string, partition: Option<string>) returns (n: int)
      ensures n == CountOf(counts, KeyOf(queue, partition))
    {
      var key := KeyOf(queue, partition);
      n := if key in counts then counts[key] else 0;
    }

    method IncWorker(key: CountKey)
      modifies this
      ensures counts == Inc(old(counts), key)
    {
      if key !in counts {
        counts := counts[key := 0];
      }
      counts := counts[key := counts[key] + 1];
    }

    method DecWorker(key: CountKey)
      modifies this
      ensures counts == Dec(old(counts), key)
    {
      if key in counts {
        counts := counts[key := counts[key] - 1];
      }
    }

    /** `dispatch_dequeued`: an unregistered workflow is dropped before its counter is touched. */
    method Dispatch(queue: string, partition: Option<string>, registered: bool) returns (spawned: bool)
      modifies this
      ensures spawned == registered
      ensures counts == if registered then Inc(old(counts), KeyOf(queue, partition)) else old(counts)
    {
      spawned := registered;
      if registered {
        IncWorker(KeyOf(queue, partition));
      }
    }
  }

  // ---- the runner -----------------------------------------------------------------------------------------

  /** Where the poll loop is: between partitions, holding the count it read, or dispatching its claims. */
  datatype Poll =
    | Idle
    | Counted(partition: Option<string>, local: int)
    | Dispatching(partition: Option<string>, claims: seq<Id>)

  /** `bodies` holds the spawned bodies that have not finished, with the counter each one holds. */
  datatype Runner = Runner(counts: map<CountKey, int>, bodies: map<nat, CountKey>, poll: Poll)

  datatype Label =
    | Read(partition: Option<string>)
    | Dequeue(request: DequeueInput, db: Db, gate: int, now: int, claims: seq<Id>, db': Db)
    | Fail
    | Dispatch(body: nat, registered: bool)
    | Finish(body: nat)

  ghost predicate Next(queue: string, worker: Option<nat>, r: Runner, l: Label, r': Runner) {
    match l
    case Read(partition) =>
      r.poll.Idle? && r' == r.(poll := Counted(partition, CountOf(r.counts, KeyOf(queue, partition))))
    case Dequeue(request, db, gate, now, claims, db') =>
      && r.poll.Counted? && request.queue == queue && request.partition == r.poll.partition && request.worker == worker
      && request.local == r.poll.local && Dequeued(db, request, gate, now, claims, db')
      && r' == r.(poll := Dispatching(r.poll.partition, claims))
    case Fail => r.poll.Counted? && r' == r.(poll := Idle)
    case Dispatch(body, registered) =>
      && r.poll.Dispatching? && body !in r.bodies
      && r' == if r.poll.claims == [] then r.(poll := Idle)
               else
                 var key, rest := KeyOf(queue, r.poll.partition), Dispatching(r.poll.partition, r.poll.claims[1..]);
                 if registered then Runner(Inc(r.counts, key), r.bodies[body := key], rest) else r.(poll := rest)
    case Finish(body) =>
      body in r.bodies && r' == r.(counts := Dec(r.counts, r.bodies[body]), bodies := r.bodies - {body})
  }

  ghost predicate Run(queue: string, worker: Option<nat>, rs: seq<Runner>, ls: seq<Label>) {
    && |rs| == |ls| + 1 && rs[0] == Runner(map[], map[], Idle)
    && forall i :: 0 <= i < |ls| ==> Next(queue, worker, rs[i], ls[i], rs[i + 1])
  }

  function BodiesAt(r: Runner, key: CountKey): set<nat> {
    set b | b in r.bodies && r.bodies[b] == key
  }

  /** Claims not yet dispatched, or those the count just read still allows, for the counter `key`. */
  ghost function Reserved(queue: string, worker: nat, poll: Poll, key: CountKey): int {
    match poll
    case Idle => 0
    case Counted(partition, local) => if KeyOf(queue, partition) == key && local <= worker then worker - local else 0
    case Dispatching(partition, claims) => if KeyOf(queue, partition) == key then |claims| else 0
  }

  ghost predicate Inv(queue: string, worker: Option<nat>, r: Runner) {
    && (forall key :: CountOf(r.counts, key) == |BodiesAt(r, key)|)
    && (worker.Some? ==> forall key ::
          |BodiesAt(r, key)| + Reserved(queue, worker.value, r.poll, key) <= worker.value)
  }

  lemma SpawnCounts(r: Runner, r': Runner, body: nat, key: CountKey, k: CountKey)
    requires body !in r.bodies && r'.bodies == r.bodies[body := key]
    ensures |BodiesAt(r', k)| == |BodiesAt(r, k)| + (if k == key then 1 else 0)
  {
    if k == key {
      assert BodiesAt(r', k) == BodiesAt(r, k) + {body};
    } else {
      assert BodiesAt(r', k) == BodiesAt(r, k);
    }
  }

  lemma FinishCounts(r: Runner, r': Runner, body: nat, k: CountKey)
    requires body in r.bodies && r'.bodies == r.bodies - {body}
    ensures |BodiesAt(r', k)| == |BodiesAt(r, k)| - (if k == r.bodies[body] then 1 else 0)
  {
    if k == r.bodies[body] {
      assert BodiesAt(r, k) == BodiesAt(r', k) + {body};
    } else {
      assert BodiesAt(r', k) == BodiesAt(r, k);
    }
  }

  lemma NextKeeps(queue: string, worker: Option<nat>, r: Runner, l: Label, r': Runner)
    requires Inv(queue, worker, r) && Next(queue, worker, r, l, r')
    ensures Inv(queue, worker, r')
  {
    forall key
      ensures CountOf(r'.counts, key) == |BodiesAt(r', key)|
      ensures worker.Some? ==> |BodiesAt(r', key)| + Reserved(queue, worker.value, r'.poll, key) <= worker.value
    {
      assert CountOf(r.counts, key) == |BodiesAt(r, key)|;
      assert worker.Some? ==> |BodiesAt(r, key)| + Reserved(queue, worker.value, r.poll, key) <= worker.value;
      match l
      case Dispatch(body, registered) =>
        if r.poll.claims != [] && registered {
          SpawnCounts(r, r', body, KeyOf(queue, r.poll.partition), key);
        }
      case Finish(body) => FinishCounts(r, r', body, key);
      case _ =>
    }
  }

  lemma {:induction false} RunKeeps(queue: string, worker: Option<nat>, rs: seq<Runner>, ls: seq<Label>, i: nat)
    requires Run(queue, worker, rs, ls) && i < |rs|
    ensures Inv(queue, worker, rs[i])
  {
    if i == 0 {
      forall key ensures BodiesAt(rs[0], key) == {} {
      }
    } else {
      RunKeeps(queue, worker, rs, ls, i - 1);
      assert Next(queue, worker, rs[i - 1], ls[i - 1], rs[i]);
      NextKeeps(queue, worker, rs[i - 1], ls[i - 1], rs[i]);
    }
  }

  /** Whatever finishes when, each counter equals the number of dispatched unfinished bodies, so it never
      underflows, and it never exceeds the worker cap. */
  lemma WorkerConcurrency(queue: string, worker: Option<nat>, rs: seq<Runner>, ls: seq<Label>, i: nat, key: CountKey)
    requires Run(queue, worker, rs, ls) && i < |rs|
    ensures CountOf(rs[i].counts, key) == |BodiesAt(rs[i], key)|
    ensures worker.Some? ==> |BodiesAt(rs[i], key)| <= worker.value
  {
    RunKeeps(queue, worker, rs, ls, i);
    assert worker.Some? ==> |BodiesAt(rs[i], key)| + Reserved(queue, worker.value, rs[i].poll, key) <= worker.value;
  }
}
