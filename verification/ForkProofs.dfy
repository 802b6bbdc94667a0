/**
 A fork is a prefix state: forking a workflow whose tables are those of a crash-free execution
 gives the tables of the same execution stopped before the start step.
 */
module ForkProofs {
  import opened Wrappers
  import opened Tables
  import opened Operations
  import opened Histories
  import opened Fork

  /** The longest prefix of `h` whose operations all have a main step id below `s`. */
  ghost function Cut(b: Body, h: seq<Outcome>, s: int): seq<Outcome> {
    if h == [] || Pos(b, h[..|h| - 1]) < s then h else Cut(b, h[..|h| - 1], s)
  }

  lemma {:induction false} CutIsPrefix(b: Body, h: seq<Outcome>, s: int)
    ensures var n := |Cut(b, h, s)|;
      n <= |h| && Cut(b, h, s) == h[..n]
      && (n < |h| ==> Pos(b, h[..n]) >= s)
      && forall k :: 0 <= k < n ==> Pos(b, h[..k]) < s
  {
    if h != [] {
      var p := h[..|h| - 1];
      if Pos(b, p) < s {
        assert h[..|h|] == h;
        forall k | 0 <= k < |h| ensures Pos(b, h[..k]) < s {
          if k < |p| {
            assert p[..k] == h[..k];
            PosMonotone(b, p, k);
          } else {
            assert h[..k] == p;
          }
        }
      } else {
        CutIsPrefix(b, p, s);
        var n := |Cut(b, p, s)|;
        assert forall k :: 0 <= k <= |p| ==> p[..k] == h[..k];
      }
    }
  }

  /** Checkpoints below `s` are accounted for by the history cut at `s`. */
  lemma CompleteBelow(b: Body, ops: map<nat, Op>, h: seq<Outcome>, s: int)
    requires Complete(b, ops, h)
    ensures Complete(b, OpsBelow(ops, s), Cut(b, h, s))
  {
    var c, below := Cut(b, h, s), OpsBelow(ops, s);
    CutIsPrefix(b, h, s);
    forall k | 0 <= k < |c| ensures At(b, below, c, k) {
      assert At(b, ops, h, k);
      assert c[..k] == h[..k];
    }
    assert c == h || Pos(b, c) >= s;
    forall i | i in below ensures Covered(b, below, c, i) {
      assert Covered(b, ops, h, i);
    }
  }

  // ---- output tables --------------------------------------------------------------------------------

  ghost predicate StepsBelow(t: Outputs, s: int) {
    && (forall ik :: ik in t.history ==> ik.0 < s)
    && (forall ko :: ko in t.streams ==> t.streams[ko].step < s)
  }

  /** A crash-free execution leaves rows only at step ids it has taken. */
  lemma {:induction false} ReplayedBelow(b: Body, h: seq<Outcome>)
    ensures StepsBelow(Replayed(b, h), Pos(b, h))
  {
    if h != [] {
      ReplayedBelow(b, h[..|h| - 1]);
    }
  }

  lemma NextOffsetFresh(streams: Streams, key: Key)
    ensures (key, NextOffset(streams, key)) !in streams
  {
    forall ko | ko in streams && ko.0 == key ensures ko.1 < NextOffset(streams, key) {
      assert ko.1 as int in OffsetsOf(streams, key);
    }
  }

  lemma LatestStepAfter(history: History, i: nat, key: Key, v: Stored, k: Key)
    requires forall ik :: ik in history ==> ik.0 < i
    ensures LatestStep(history[(i, key) := v], k) == if k == key then i else LatestStep(history, k)
  {
    var history' := history[(i, key) := v];
    var s := set ik | ik in history && ik.1 == k :: ik.0 as int;
    var s' := set ik | ik in history' && ik.1 == k :: ik.0 as int;
    if k == key {
      assert (i, key) in history';
      assert i in s';
    } else {
      assert s == s';
    }
  }

  /** A key is current when it occurs in the history at all. */
  lemma KeysAreCurrent(history: History, key: Key)
    ensures key in CurrentEvents(history) <==> exists i: nat :: (i, key) in history
    ensures key in CurrentEvents(history) ==>
      var i := LatestStep(history, key);
      i >= 0 && (i, key) in history && CurrentEvents(history)[key] == history[(i, key)]
  {
    var s := set ik | ik in history && ik.1 == key :: ik.0 as int;
    if i: nat :| (i, key) in history {
      assert i as int in s;
      var ik :| ik in history && ik.1 == key && ik.0 as int == MaxOf(s);
      assert ik == (ik.0, key);
    }
  }

  lemma LatestAfter(history: History, i: nat, key: Key, v: Stored)
    requires forall ik :: ik in history ==> ik.0 < i
    ensures CurrentEvents(history[(i, key) := v]) == CurrentEvents(history)[key := v]
  {
    var history' := history[(i, key) := v];
    var c, c' := CurrentEvents(history)[key := v], CurrentEvents(history');
    forall k ensures (k in c <==> k in c') && (k in c ==> c[k] == c'[k]) {
      KeyAfter(history, i, key, v, k);
    }
  }

  lemma KeyAfter(history: History, i: nat, key: Key, v: Stored, k: Key)
    requires forall ik :: ik in history ==> ik.0 < i
    ensures var c, c' := CurrentEvents(history)[key := v], CurrentEvents(history[(i, key) := v]);
      (k in c <==> k in c') && (k in c ==> c[k] == c'[k])
  {
    var history' := history[(i, key) := v];
    LatestStepAfter(history, i, key, v, k);
    KeysAreCurrent(history, k);
    KeysAreCurrent(history', k);
    assert (i, key) in history';
    if k != key && k in CurrentEvents(history) {
      var j: nat :| (j, k) in history;
      assert (j, k) in history';
    }
  }

  /** The current events are the last ones of the history. */
  lemma {:induction false} EventsAreCurrent(b: Body, h: seq<Outcome>)
    ensures CurrentEvents(Replayed(b, h).history) == Replayed(b, h).events
  {
    if h != [] {
      var p := h[..|h| - 1];
      EventsAreCurrent(b, p);
      ReplayedBelow(b, p);
      var t := Replayed(b, p);
      match b(p)
      case SetEvent(key, value) => LatestAfter(t.history, Pos(b, p), key, Stored(value, Some(PORTABLE)));
      case _ =>
    }
  }

  lemma BelowDropsLater(t: Outputs, a: Action, i: nat, s: int)
    requires StepsBelow(t, i) && s <= i
    ensures HistoryBelow(Effect(t, a, i).history, s) == HistoryBelow(t.history, s)
    ensures StreamsBelow(Effect(t, a, i).streams, s) == StreamsBelow(t.streams, s)
  {
    if a.Write? || a.Close? {
      NextOffsetFresh(t.streams, a.key);
    }
  }

  lemma BelowKeepsAll(t: Outputs, s: int)
    requires StepsBelow(t, s)
    ensures HistoryBelow(t.history, s) == t.history && StreamsBelow(t.streams, s) == t.streams
  {
  }

  /** Operations whose step id is below `s` leave their rows below `s`. */
  lemma EffectBelow(t: Outputs, a: Action, i: nat, s: int)
    requires StepsBelow(t, i) && i < s
    ensures StepsBelow(Effect(t, a, i), s)
  {
  }

  /** Filtering the output tables below `s` gives the outputs of the execution cut at `s`. */
  lemma {:induction false} ReplayedCut(b: Body, h: seq<Outcome>, s: int)
    ensures OutputsBelow(Replayed(b, h), s) == Replayed(b, Cut(b, h, s))
  {
    if h == [] {
      assert CurrentEvents(map[]) == map[];
    } else {
      var p := h[..|h| - 1];
      var t := Replayed(b, p);
      ReplayedBelow(b, p);
      if Pos(b, p) < s {
        EffectBelow(t, b(p), Pos(b, p), s);
        BelowKeepsAll(Effect(t, b(p), Pos(b, p)), s);
        EventsAreCurrent(b, h);
      } else {
        BelowDropsLater(t, b(p), Pos(b, p), s);
        ReplayedCut(b, p, s);
      }
    }
  }

  // ---- the theorems ---------------------------------------------------------------------------------

  ghost function ForkHistory(b: Body, h: seq<Outcome>, start: int): seq<Outcome> {
    if start > 0 then Cut(b, h, start) else []
  }

  /** Fork is a prefix state. */
  lemma ForkIsPrefixState(b: Body, x: Workflow, h: seq<Outcome>, input: ForkInput)
    requires Frontier(b, x, h)
    ensures Frontier(b, ForkWorkflow(x, input), ForkHistory(b, h, input.start))
    ensures ForkHistory(b, h, input.start) <= h
  {
    if input.start > 0 {
      var c := Cut(b, h, input.start);
      CutIsPrefix(b, h, input.start);
      CompleteBelow(b, x.ops, h, input.start);
      ReplayedCut(b, h, input.start);
      forall k | 0 <= k < |c| ensures WritesWhenOpen(b, c, k) {
        assert WritesWhenOpen(b, h, k);
        assert c[..k] == h[..k];
      }
    }
  }

  lemma OpsBelowTwice(ops: map<nat, Op>, s: int, t: int)
    requires t <= s
    ensures OpsBelow(OpsBelow(ops, s), t) == OpsBelow(ops, t)
  {
  }

  lemma HistoryBelowTwice(history: History, s: int, t: int)
    requires t <= s
    ensures HistoryBelow(HistoryBelow(history, s), t) == HistoryBelow(history, t)
  {
  }

  lemma StreamsBelowTwice(streams: Streams, s: int, t: int)
    requires t <= s
    ensures StreamsBelow(StreamsBelow(streams, s), t) == StreamsBelow(streams, t)
  {
  }

  /** Forking a fork at an earlier step is forking the original there. */
  lemma ForkOfFork(x: Workflow, first: ForkInput, second: ForkInput)
    requires second.start <= first.start
    ensures var direct, nested := ForkWorkflow(x, second), ForkWorkflow(ForkWorkflow(x, first), second);
      nested.ops == direct.ops && OutputsOf(nested) == OutputsOf(direct)
      && nested.row.name == direct.row.name && nested.row.inputs == direct.row.inputs
  {
    var s, t := first.start, second.start;
    if 0 < t {
      OpsBelowTwice(x.ops, s, t);
      HistoryBelowTwice(x.history, s, t);
      StreamsBelowTwice(x.streams, s, t);
    }
  }

  /** The value of the last `set_event` of `key` in a history. */
  ghost function LastSet(b: Body, h: seq<Outcome>, key: Key): Option<string> {
    if h == [] then None
    else
      var p := h[..|h| - 1];
      if b(p).SetEvent? && b(p).key == key then Some(b(p).value) else LastSet(b, p, key)
  }

  /** `get_event` reads the last value set: in the fork, the last one set before the start step. */
  lemma {:induction false} EventIsLastSet(b: Body, h: seq<Outcome>, key: Key)
    ensures var events := Replayed(b, h).events;
      match LastSet(b, h, key)
      case Some(v) => key in events && events[key] == Stored(v, Some(PORTABLE))
      case None => key !in events
  {
    if h != [] {
      EventIsLastSet(b, h[..|h| - 1], key);
    }
  }
}
