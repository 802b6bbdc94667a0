/** Exactly-once effects and the shape of streams, in every state of every run. */
module Effects {
  import opened Wrappers
  import opened Tables
  import opened Operations
  import opened Histories
  import opened ForkProofs
  import opened Replay
  import opened ReplayProofs
  import opened ReplayTheorems

  // ---- one row per operation ------------------------------------------------------------------------

  ghost function HistoryAt(history: History, i: nat): set<(nat, Key)> {
    set ik | ik in history && ik.0 == i
  }

  ghost function StreamAt(streams: Streams, i: nat): set<(Key, nat)> {
    set ko | ko in streams && streams[ko].step == i
  }

  /** The rows with step id `i` are those of one `set_event`, one stream write, or none, in the format they were encoded
      in; the close sentinel has none. */
  ghost predicate EffectOnce(t: Outputs, a: Action, i: nat) {
    match a
    case SetEvent(key, value) =>
      && HistoryAt(t.history, i) == {(i, key)} && t.history[(i, key)] == Stored(value, Some(PORTABLE))
      && StreamAt(t.streams, i) == {}
    case Write(key, text) =>
      && HistoryAt(t.history, i) == {}
      && exists o ::
        StreamAt(t.streams, i) == {(key, o)} && (key, o) in t.streams
        && t.streams[(key, o)] == Entry(text, i, Some(PORTABLE))
    case Close(key) =>
      && HistoryAt(t.history, i) == {}
      && exists o ::
        StreamAt(t.streams, i) == {(key, o)} && (key, o) in t.streams && t.streams[(key, o)] == Entry(SENTINEL, i, None)
    case _ => HistoryAt(t.history, i) == {} && StreamAt(t.streams, i) == {}
  }

  lemma NewEffectOnce(t: Outputs, a: Action, i: nat)
    requires StepsBelow(t, i)
    ensures EffectOnce(Effect(t, a, i), a, i)
  {
    var t' := Effect(t, a, i);
    if a.SetEvent? {
      assert HistoryAt(t'.history, i) == {(i, a.key)};
    } else if WritesStream(a) {
      assert StreamAt(t'.streams, i) == {(a.key, NextOffset(t.streams, a.key))};
    }
  }

  lemma OldEffectStays(t: Outputs, a: Action, i: nat, a': Action, i': nat)
    requires EffectOnce(t, a, i) && i < i'
    ensures EffectOnce(Effect(t, a', i'), a, i)
  {
    var t' := Effect(t, a', i');
    if WritesStream(a') {
      NextOffsetFresh(t.streams, a'.key);
    }
    assert HistoryAt(t'.history, i) == HistoryAt(t.history, i);
    assert StreamAt(t'.streams, i) == StreamAt(t.streams, i);
    if WritesStream(a) {
      var o :| StreamAt(t.streams, i) == {(a.key, o)} && (a.key, o) in t.streams
        && t.streams[(a.key, o)] == if a.Write? then Entry(a.text, i, Some(PORTABLE)) else Entry(SENTINEL, i, None);
      assert StreamAt(t'.streams, i) == {(a.key, o)} && (a.key, o) in t'.streams;
    }
  }

  /** The k-th operation of a history has left its effect exactly once, and nothing else at its step id. */
  lemma {:induction false} ReplayedOnce(b: Body, h: seq<Outcome>, k: nat)
    requires k < |h|
    ensures EffectOnce(Replayed(b, h), b(h[..k]), Pos(b, h[..k]))
  {
    var p := h[..|h| - 1];
    if k < |p| {
      assert p[..k] == h[..k];
      ReplayedOnce(b, p, k);
      PosMonotone(b, p, k);
      OldEffectStays(Replayed(b, p), b(h[..k]), Pos(b, h[..k]), b(p), Pos(b, p));
    } else {
      assert p == h[..k];
      ReplayedBelow(b, p);
      NewEffectOnce(Replayed(b, p), b(p), Pos(b, p));
    }
  }

  /** The operation at step `i` of a history. */
  ghost predicate IsOperation(b: Body, h: seq<Outcome>, k: nat, i: nat) {
    k < |h| && Pos(b, h[..k]) == i
  }

  /** Every effect row carries the step id of an operation. */
  lemma {:induction false} RowsHaveOperations(b: Body, h: seq<Outcome>)
    ensures forall ik :: ik in Replayed(b, h).history ==> exists k :: IsOperation(b, h, k, ik.0)
    ensures forall ko :: ko in Replayed(b, h).streams ==>
      exists k :: IsOperation(b, h, k, Replayed(b, h).streams[ko].step)
  {
    if h != [] {
      var p := h[..|h| - 1];
      RowsHaveOperations(b, p);
      assert forall k: nat :: k < |p| ==> p[..k] == h[..k];
      assert forall k, i :: IsOperation(b, p, k, i) ==> IsOperation(b, h, k, i);
      assert IsOperation(b, h, |p|, Pos(b, p));
    }
  }

  /**
   Exactly-once: in every reachable state, however executions overlapped, crashed and restarted, each
   checkpointed operation of a workflow has left its event or stream entry exactly once, and every
   event-history row and stream entry belongs to a checkpointed operation.
   */
  lemma ExactlyOnceEffects(reg: Registry, ss: seq<Sys>, ls: seq<Label>, i: nat, w: Id) returns (h: seq<Outcome>)
    requires Run(reg, ss, ls) && i < |ss| && w in ss[i].db
    ensures var b, x := BodyOf(reg, ss[i].db[w]), ss[i].db[w];
      && Complete(b, x.ops, h)
      && (forall k {:trigger h[..k]} :: 0 <= k < |h| ==>
            Pos(b, h[..k]) in x.ops && EffectOnce(OutputsOf(x), b(h[..k]), Pos(b, h[..k])))
      && (forall ik :: ik in x.history ==> ik.0 in x.ops && exists k :: IsOperation(b, h, k, ik.0))
      && (forall ko :: ko in x.streams ==>
            x.streams[ko].step in x.ops && exists k :: IsOperation(b, h, k, x.streams[ko].step))
  {
    h := TablesAreCrashFree(reg, ss, ls, i, w);
    var b, x := BodyOf(reg, ss[i].db[w]), ss[i].db[w];
    forall k | 0 <= k < |h|
      ensures Pos(b, h[..k]) in x.ops && EffectOnce(OutputsOf(x), b(h[..k]), Pos(b, h[..k]))
    {
      assert At(b, x.ops, h, k);
      ReplayedOnce(b, h, k);
    }
    RowsHaveOperations(b, h);
  }

  // ---- stream shape ---------------------------------------------------------------------------------

  ghost predicate Contiguous(streams: Streams) {
    forall key: Key, o: nat, p: nat :: (key, o) in streams && p < o ==> (key, p) in streams
  }

  ghost predicate StepsIncrease(streams: Streams) {
    forall key: Key, o: nat, p: nat :: (key, o) in streams && (key, p) in streams && p < o ==>
      streams[(key, p)].step < streams[(key, o)].step
  }

  ghost predicate SentinelLast(streams: Streams) {
    forall key: Key, o: nat, p: nat ::
      ((key, o) in streams && (key, p) in streams && streams[(key, p)].value == SENTINEL) ==> o <= p
  }

  /** Offsets 0..n-1 without gaps, strictly increasing step ids, a close sentinel only as the last entry
      (hence at most once). */
  ghost predicate WellShaped(streams: Streams) {
    Contiguous(streams) && StepsIncrease(streams) && SentinelLast(streams)
  }

  /** In a gapless stream the next offset is the length of the log. */
  lemma NextIsLength(streams: Streams, key: Key, o: nat)
    requires Contiguous(streams)
    ensures (key, o) in streams <==> o < NextOffset(streams, key)
  {
    var s := OffsetsOf(streams, key);
    if (key, o) in streams {
      assert o as int in s;
    }
    if s != {} {
      var ko :| ko in streams && ko.0 == key && ko.1 as int == MaxOf(s);
      assert ko == (key, ko.1);
    }
  }

  lemma AppendShape(streams: Streams, key: Key, entry: Entry)
    requires WellShaped(streams) && !StreamClosed(streams, key)
    requires forall ko :: ko in streams ==> streams[ko].step < entry.step
    ensures WellShaped(streams[(key, NextOffset(streams, key)) := entry])
  {
    forall o: nat ensures (key, o) in streams <==> o < NextOffset(streams, key) {
      NextIsLength(streams, key, o);
    }
  }

  lemma {:induction false} ReplayedShape(b: Body, h: seq<Outcome>)
    requires Orderly(b, h)
    ensures WellShaped(Replayed(b, h).streams)
  {
    if h != [] {
      var p := h[..|h| - 1];
      forall k | 0 <= k < |p| ensures WritesWhenOpen(b, p, k) {
        assert WritesWhenOpen(b, h, k);
        assert p[..k] == h[..k];
      }
      ReplayedShape(b, p);
      ReplayedBelow(b, p);
      assert WritesWhenOpen(b, h, |p|);
      var t := Replayed(b, p);
      match b(p)
      case Write(key, text) => AppendShape(t.streams, key, Entry(text, Pos(b, p), Some(PORTABLE)));
      case Close(key) => AppendShape(t.streams, key, Entry(SENTINEL, Pos(b, p), None));
      case _ =>
    }
  }

  /** Every stream of every workflow, forks included, is well shaped in every reachable state. */
  lemma StreamsAreWellShaped(reg: Registry, ss: seq<Sys>, ls: seq<Label>, i: nat, w: Id)
    requires Run(reg, ss, ls) && i < |ss| && w in ss[i].db
    ensures WellShaped(ss[i].db[w].streams)
  {
    RunKeeps(reg, ss, ls, i);
    var x := ss[i].db[w];
    assert WorkflowOk(reg, x);
    var h :| Frontier(BodyOf(reg, x), x, h);
    ReplayedShape(BodyOf(reg, x), h);
  }
}
