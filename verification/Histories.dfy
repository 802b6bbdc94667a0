/**
 A deterministic workflow body is a total function from the outcomes it has seen to its next
 action. This module relates a history of outcomes to the rows that checkpoint it:
 `Trace` reads a history off `operation_outputs`, `Replayed` is what one crash-free execution
 leaves in the output tables, and `Frontier` says a workflow's tables are exactly such a state.
 */
module Histories {
  import opened Tables
  import opened Operations

  type Body = seq<Outcome> -> Action

  /** The step id of the operation that follows `h`: the counter starts at -1 and counts slots. */
  ghost function Pos(b: Body, h: seq<Outcome>): nat {
    if h == [] then 0 else Pos(b, h[..|h| - 1]) + Slots(b(h[..|h| - 1]))
  }

  /** Row `i` is a checkpoint the action `a` could have written at step `i`. */
  ghost predicate Recorded(ops: map<nat, Op>, a: Action, i: nat) {
    && !a.Return?
    && i in ops
    && ops[i].name == ActionName(a)
    && (a.Sleep? ==> IsSleepOp(ops[i]))
    && (a.Child? ==> ops[i].child.Some?)
    && (Slots(a) == 2 && i + 1 in ops ==> IsSleepOp(ops[i + 1]))
  }

  ghost predicate At(b: Body, ops: map<nat, Op>, h: seq<Outcome>, k: nat)
    requires k < |h|
  {
    var a, i := b(h[..k]), Pos(b, h[..k]);
    Recorded(ops, a, i) && h[k] == Decode(a, ops[i])
  }

  /** `h` is what an execution restarted at step -1 reads back from `ops`. */
  ghost predicate Trace(b: Body, ops: map<nat, Op>, h: seq<Outcome>) {
    forall k :: 0 <= k < |h| ==> At(b, ops, h, k)
  }

  /** The output tables after one crash-free execution of the operations of `h`. */
  ghost function Replayed(b: Body, h: seq<Outcome>): Outputs {
    if h == [] then Outputs(map[], map[], map[])
    else var p := h[..|h| - 1]; Effect(Replayed(b, p), b(p), Pos(b, p))
  }

  ghost predicate WritesWhenOpen(b: Body, h: seq<Outcome>, k: nat)
    requires k < |h|
  {
    var a := b(h[..k]);
    WritesStream(a) ==> !StreamClosed(Replayed(b, h[..k]).streams, a.key)
  }

  /** Nothing in `h` writes to a stream that `h` closed before. */
  ghost predicate Orderly(b: Body, h: seq<Outcome>) {
    forall k :: 0 <= k < |h| ==> WritesWhenOpen(b, h, k)
  }

  /** A row at a step id of `h`, or the deadline row of the timed operation after it. */
  ghost predicate Covered(b: Body, ops: map<nat, Op>, h: seq<Outcome>, i: nat)
    requires i in ops
  {
    i < Pos(b, h) || (i == Pos(b, h) + 1 && Slots(b(h)) == 2 && IsSleepOp(ops[i]))
  }

  /** `h` accounts for every checkpoint of `ops`. */
  ghost predicate Complete(b: Body, ops: map<nat, Op>, h: seq<Outcome>) {
    && Trace(b, ops, h)
    && Pos(b, h) !in ops
    && forall i :: i in ops ==> Covered(b, ops, h, i)
  }

  /** The tables of `x` are those of the crash-free execution with history `h`, and no more. */
  ghost predicate Frontier(b: Body, x: Workflow, h: seq<Outcome>) {
    Complete(b, x.ops, h) && OutputsOf(x) == Replayed(b, h) && Orderly(b, h)
  }

  ghost predicate Grown(ops: map<nat, Op>, ops': map<nat, Op>) {
    forall i :: i in ops ==> i in ops' && ops'[i] == ops[i]
  }

  /** Rows gained below the next step of any reader of `ops` are deadlines. */
  ghost predicate RowsLate(b: Body, ops: map<nat, Op>, ops': map<nat, Op>) {
    forall g, i {:trigger Pos(b, g), i in ops'} ::
      Trace(b, ops, g) && i in ops' && i !in ops && i < Pos(b, g) ==> IsSleepOp(ops'[i])
  }

  // ---- step ids -----------------------------------------------------------------------------------

  lemma {:induction false} PosMonotone(b: Body, h: seq<Outcome>, k: nat)
    requires k < |h|
    ensures Pos(b, h[..k]) + Slots(b(h[..k])) <= Pos(b, h)
  {
    var p := h[..|h| - 1];
    if k < |p| {
      assert p[..k] == h[..k];
      PosMonotone(b, p, k);
    }
  }

  lemma PosExtend(b: Body, h: seq<Outcome>, o: Outcome)
    ensures Pos(b, h + [o]) == Pos(b, h) + Slots(b(h))
    ensures Replayed(b, h + [o]) == Effect(Replayed(b, h), b(h), Pos(b, h))
  {
    assert (h + [o])[..|h|] == h;
  }

  /** Distinct operations of a history own disjoint step ids. */
  lemma SlotsDisjoint(b: Body, h: seq<Outcome>, j: nat, k: nat)
    requires j < k < |h|
    ensures Pos(b, h[..j]) + Slots(b(h[..j])) <= Pos(b, h[..k])
  {
    assert h[..k][..j] == h[..j];
    PosMonotone(b, h[..k], j);
  }

  // ---- traces -------------------------------------------------------------------------------------

  lemma TracePrefix(b: Body, ops: map<nat, Op>, h: seq<Outcome>, n: nat)
    requires Trace(b, ops, h) && n <= |h|
    ensures Trace(b, ops, h[..n])
  {
    forall k | 0 <= k < n ensures At(b, ops, h[..n], k) {
      assert At(b, ops, h, k);
      assert h[..n][..k] == h[..k];
    }
  }

  lemma TraceExtend(b: Body, ops: map<nat, Op>, h: seq<Outcome>, o: Outcome)
    requires Trace(b, ops, h) && Recorded(ops, b(h), Pos(b, h)) && o == Decode(b(h), ops[Pos(b, h)])
    ensures Trace(b, ops, h + [o])
  {
    forall k | 0 <= k < |h| + 1 ensures At(b, ops, h + [o], k) {
      assert (h + [o])[..k] == h[..k];
      if k < |h| {
        assert At(b, ops, h, k);
      } else {
        assert h[..k] == h;
      }
    }
  }

  lemma OrderlyExtend(b: Body, h: seq<Outcome>, o: Outcome)
    requires Orderly(b, h)
    requires WritesStream(b(h)) ==> !StreamClosed(Replayed(b, h).streams, b(h).key)
    ensures Orderly(b, h + [o])
  {
    forall k | 0 <= k < |h| + 1 ensures WritesWhenOpen(b, h + [o], k) {
      assert (h + [o])[..k] == h[..k];
      if k < |h| {
        assert WritesWhenOpen(b, h, k);
      } else {
        assert h[..k] == h;
      }
    }
  }

  /** Every history read off the rows of a workflow is a prefix of its one frontier history. */
  lemma {:induction false} TraceIsPrefix(b: Body, ops: map<nat, Op>, h: seq<Outcome>, g: seq<Outcome>)
    requires Complete(b, ops, h) && Trace(b, ops, g)
    ensures g <= h
  {
    if g != [] {
      var n := |g| - 1;
      TracePrefix(b, ops, g, n);
      TraceIsPrefix(b, ops, h, g[..n]);
      assert At(b, ops, g, n);
      assert h[..n] == g[..n];
      assert h != g[..n];
      assert At(b, ops, h, n);
    }
  }

  lemma CompleteUnique(b: Body, ops: map<nat, Op>, g: seq<Outcome>, h: seq<Outcome>)
    requires Complete(b, ops, g) && Complete(b, ops, h)
    ensures g == h
  {
    TraceIsPrefix(b, ops, g, h);
    TraceIsPrefix(b, ops, h, g);
  }

  lemma TraceBehind(b: Body, ops: map<nat, Op>, h: seq<Outcome>, g: seq<Outcome>)
    requires Complete(b, ops, h) && Trace(b, ops, g)
    ensures g <= h && Pos(b, g) <= Pos(b, h)
  {
    TraceIsPrefix(b, ops, h, g);
    if |g| < |h| {
      assert h[..|g|] == g;
      PosMonotone(b, h, |g|);
    } else {
      assert g == h;
    }
  }

  /** An execution that finds no row at its next step has read the whole frontier history. */
  lemma TraceToFrontier(b: Body, ops: map<nat, Op>, h: seq<Outcome>, g: seq<Outcome>)
    requires Complete(b, ops, h) && Trace(b, ops, g) && Pos(b, g) !in ops
    ensures g == h
  {
    TraceIsPrefix(b, ops, h, g);
    forall k | 0 <= k < |h| ensures Pos(b, h[..k]) in ops {
      assert At(b, ops, h, k);
    }
    assert h[..|g|] == g;
  }

  /** A row at the next step of an execution is the checkpoint its body asks for. */
  lemma RowIsExpected(b: Body, ops: map<nat, Op>, h: seq<Outcome>, g: seq<Outcome>)
    requires Complete(b, ops, h) && Trace(b, ops, g) && Pos(b, g) in ops
    ensures Recorded(ops, b(g), Pos(b, g))
    ensures forall d: nat :: d == Pos(b, g) + 1 && Slots(b(g)) == 2 && d in ops ==> IsSleepOp(ops[d])
  {
    TraceIsPrefix(b, ops, h, g);
    assert g != h;
    assert h[..|g|] == g;
    assert At(b, ops, h, |g|);
  }

  /** The deadline row of a timed operation is a deadline. */
  lemma DeadlineIsSleep(b: Body, ops: map<nat, Op>, h: seq<Outcome>, g: seq<Outcome>, d: nat)
    requires Complete(b, ops, h) && Trace(b, ops, g) && Slots(b(g)) == 2
    requires d == Pos(b, g) + 1 && d in ops
    ensures IsSleepOp(ops[d])
  {
    if Pos(b, g) in ops {
      RowIsExpected(b, ops, h, g);
    } else {
      TraceToFrontier(b, ops, h, g);
      assert Covered(b, ops, g, d);
    }
  }

  lemma TraceGrown(b: Body, ops: map<nat, Op>, ops': map<nat, Op>, h: seq<Outcome>)
    requires Trace(b, ops, h) && Grown(ops, ops')
    requires forall i {:trigger IsSleepOp(ops'[i])} :: i in ops' && i !in ops && i < Pos(b, h) ==> IsSleepOp(ops'[i])
    ensures Trace(b, ops', h)
  {
    forall k | 0 <= k < |h| ensures At(b, ops', h, k) {
      assert At(b, ops, h, k);
      PosMonotone(b, h, k);
      var i := Pos(b, h[..k]) + 1;
      assert i in ops' ==> i in ops || IsSleepOp(ops'[i]) || Slots(b(h[..k])) != 2;
    }
  }

  // ---- the two ways tables grow -------------------------------------------------------------------

  /** A checkpoint and its effect, written at the frontier, advance the crash-free execution by one operation. */
  lemma FrontierCommit(b: Body, x: Workflow, h: seq<Outcome>, op: Op, x': Workflow)
    requires Frontier(b, x, h)
    requires x'.ops == x.ops[Pos(b, h) := op] && Recorded(x'.ops, b(h), Pos(b, h))
    requires OutputsOf(x') == Effect(OutputsOf(x), b(h), Pos(b, h))
    requires WritesStream(b(h)) ==> !StreamClosed(x.streams, b(h).key)
    ensures Frontier(b, x', h + [Decode(b(h), op)])
  {
    var i, o := Pos(b, h), Decode(b(h), op);
    PosExtend(b, h, o);
    TraceGrown(b, x.ops, x'.ops, h);
    TraceExtend(b, x'.ops, h, o);
    OrderlyExtend(b, h, o);
    forall j | j in x.ops ensures Covered(b, x'.ops, h + [o], j) && j != i + Slots(b(h)) {
      assert Covered(b, x.ops, h, j);
    }
  }

  /** The deadline row of a timed operation, whoever writes it, moves no history. */
  lemma FrontierDeadline(b: Body, x: Workflow, h: seq<Outcome>, g: seq<Outcome>, end: int, x': Workflow)
    requires Frontier(b, x, h) && Trace(b, x.ops, g) && Slots(b(g)) == 2
    requires Pos(b, g) + 1 !in x.ops
    requires x'.ops == x.ops[Pos(b, g) + 1 := SleepOp(end)] && OutputsOf(x') == OutputsOf(x)
    ensures Frontier(b, x', h)
  {
    var d := Pos(b, g) + 1;
    TraceIsPrefix(b, x.ops, h, g);
    if |g| < |h| {
      assert h[..|g|] == g;
      PosMonotone(b, h, |g|);
    } else {
      assert g == h;
    }
    TraceGrown(b, x.ops, x'.ops, h);
    forall j | j in x'.ops ensures Covered(b, x'.ops, h, j) {
      assert j != d ==> Covered(b, x.ops, h, j);
    }
  }

  // ---- single operations ----------------------------------------------------------------------------

  ghost predicate Reads(b: Body, ops: map<nat, Op>, h: seq<Outcome>, i: nat, a: Action) {
    Trace(b, ops, h) && Pos(b, h) == i && b(h) == a && i in ops
  }

  /** Row `i` is the checkpoint of the body's operation `a`. */
  ghost predicate Operation(b: Body, ops: map<nat, Op>, i: nat, a: Action) {
    exists h :: Reads(b, ops, h, i, a)
  }

  lemma OperationStays(b: Body, ops: map<nat, Op>, ops': map<nat, Op>, i: nat, a: Action)
    requires Operation(b, ops, i, a) && Grown(ops, ops') && RowsLate(b, ops, ops')
    ensures Operation(b, ops', i, a)
  {
    var h :| Reads(b, ops, h, i, a);
    TraceGrown(b, ops, ops', h);
    assert Reads(b, ops', h, i, a);
  }

  /** The checkpoint of an operation was that operation's before other rows were added. */
  lemma OperationWas(
    b: Body, ops: map<nat, Op>, ops': map<nat, Op>, h: seq<Outcome>, h': seq<Outcome>, i: nat, a: Action)
    requires Complete(b, ops, h) && Complete(b, ops', h') && Grown(ops, ops') && RowsLate(b, ops, ops')
    requires i in ops && Operation(b, ops', i, a)
    ensures Operation(b, ops, i, a)
  {
    var g :| Reads(b, ops', g, i, a);
    TraceGrown(b, ops, ops', h);
    TraceIsPrefix(b, ops', h', g);
    TraceIsPrefix(b, ops', h', h);
    assert Covered(b, ops, h, i);
    if |g| <= |h| {
      assert g == h[..|g|];
      TracePrefix(b, ops, h, |g|);
      assert Reads(b, ops, g, i, a);
    } else {
      assert h == g[..|h|];
      PosMonotone(b, g, |h|);
    }
  }

  /** A step id belongs to one operation. */
  lemma OperationUnique(b: Body, ops: map<nat, Op>, h: seq<Outcome>, i: nat, a: Action, a': Action)
    requires Complete(b, ops, h) && Operation(b, ops, i, a) && Operation(b, ops, i, a')
    ensures a == a'
  {
    var f :| Reads(b, ops, f, i, a);
    var g :| Reads(b, ops, g, i, a');
    TraceIsPrefix(b, ops, h, f);
    TraceIsPrefix(b, ops, h, g);
    if |f| < |g| {
      assert g[..|f|] == f;
      PosMonotone(b, g, |f|);
    } else if |g| < |f| {
      assert f[..|g|] == g;
      PosMonotone(b, f, |g|);
    } else {
      assert f == g;
    }
  }
}
