/**
 Values reach their readers: what `write_stream`, `set_event` and `send` encode, store and tag, in every reachable state
 and whatever crashed, is what a reader, `get_event` and `recv` decode.
 */
module Delivery {
  import opened Wrappers
  import opened Tables
  import opened Operations
  import opened Histories
  import opened ForkProofs
  import opened Replay
  import opened ReplayProofs
  import opened ReplayTheorems
  import opened Mailbox
  import opened Effects
  import opened StreamReader
  import opened Observations
  import Json
  import Serialize

  type Lower = (Json.Value, Option<Json.Value>) -> Json.Value

  /** The text those operations store for `v`, when the parser does not refuse it as nested deeper than `d`. */
  predicate Encodes(text: string, v: Json.Value, d: nat) {
    Json.Valid(v) && Json.Depth(v) <= d && text == Serialize.EncodeJson(v, Serialize.Portable)
  }

  /** A column and its format decode to `v`. */
  predicate DecodesTo(text: string, format: Option<string>, d: nat, lower: Lower, v: Json.Value) {
    Serialize.DecodeToJson(Some(text), format, d, lower) == Ok(v)
  }

  lemma EncodedDecodes(text: string, v: Json.Value, d: nat, lower: Lower)
    requires Encodes(text, v, d)
    ensures DecodesTo(text, Some(PORTABLE), d, lower, v)
  {
    Serialize.TaggedRoundTrip(v, d, lower);
  }

  // ---- streams --------------------------------------------------------------------------------------------

  /** The texts a history writes to a stream, in order. */
  ghost function Written(b: Body, h: seq<Outcome>, key: Key): seq<string> {
    if h == [] then []
    else
      var p := h[..|h| - 1];
      if b(p).Write? && b(p).key == key then Written(b, p, key) + [b(p).text] else Written(b, p, key)
  }

  /** A log of exactly the texts written, perhaps closed. */
  ghost predicate Logs(log: seq<StreamEntry>, texts: seq<string>, closed: bool) {
    && |log| == |texts| + (if closed then 1 else 0)
    && (forall k :: 0 <= k < |texts| ==> log[k] == StreamEntry(texts[k], k, Some(PORTABLE)) && texts[k] != SENTINEL)
    && (closed ==> log[|texts|] == StreamEntry(SENTINEL, |texts|, None))
  }

  lemma LogAppends(streams: Streams, streams': Streams, key: Key, entry: Entry, k: Key)
    requires Contiguous(streams) && Contiguous(streams')
    requires streams' == streams[(key, NextOffset(streams, key)) := entry]
    ensures Log(streams', k)
         == if k == key then Log(streams, k) + [StreamEntry(entry.value, NextOffset(streams, k), entry.format)]
            else Log(streams, k)
  {
    RowsAreTail(streams, k, 0);
    RowsAreTail(streams', k, 0);
    var n, n' := NextOffset(streams, k), NextOffset(streams', k);
    NextOffsetFresh(streams, key);
    NextIsLength(streams, k, n);
    NextIsLength(streams', k, n);
    NextIsLength(streams', k, n + 1);
    NextIsLength(streams, k, n + 1);
    NextIsLength(streams, k, n');
    NextIsLength(streams', k, n');
  }

  lemma ClosedLog(streams: Streams, key: Key)
    requires Contiguous(streams)
    ensures var log := Log(streams, key);
      StreamClosed(streams, key) <==> exists k :: 0 <= k < |log| && log[k].value == SENTINEL
  {
    RowsAreTail(streams, key, 0);
    var log := Log(streams, key);
    if StreamClosed(streams, key) {
      var ko :| ko in streams && ko.0 == key && streams[ko].value == SENTINEL;
      assert ko == (key, ko.1);
      NextIsLength(streams, key, ko.1);
      assert log[ko.1].value == SENTINEL;
    }
    if k :| 0 <= k < |log| && log[k].value == SENTINEL {
      assert (key, k) in streams && streams[(key, k)].value == SENTINEL;
    }
  }

  /** One more operation of a crash-free execution. */
  lemma WriteLogs(t: Outputs, a: Action, i: nat, key: Key, texts: seq<string>, closed: bool)
    returns (texts': seq<string>, closed': bool)
    requires WellShaped(t.streams) && WellShaped(Effect(t, a, i).streams)
    requires Logs(Log(t.streams, key), texts, closed) && (WritesStream(a) ==> !StreamClosed(t.streams, a.key))
    ensures texts' == (if a.Write? && a.key == key then texts + [a.text] else texts)
    ensures Logs(Log(Effect(t, a, i).streams, key), texts', closed')
  {
    texts', closed' := texts, closed;
    if WritesStream(a) {
      var entry := if a.Write? then Entry(a.text, i, Some(PORTABLE)) else Entry(SENTINEL, i, None);
      LogAppends(t.streams, Effect(t, a, i).streams, a.key, entry, key);
      if a.key == key {
        ClosedLog(t.streams, key);
        RowsAreTail(t.streams, key, 0);
        assert !closed;
        texts' := if a.Write? then texts + [a.text] else texts;
        closed' := a.Close?;
      }
    }
  }

  lemma {:induction false} LogIsWritten(b: Body, h: seq<Outcome>, key: Key) returns (closed: bool)
    requires Orderly(b, h)
    ensures Logs(Log(Replayed(b, h).streams, key), Written(b, h, key), closed)
  {
    if h == [] {
      closed := false;
      RowsAreTail(map[], key, 0);
    } else {
      var p := h[..|h| - 1];
      OrderlyPrefix(b, h, |p|);
      closed := LogIsWritten(b, p, key);
      ReplayedShape(b, p);
      ReplayedShape(b, h);
      assert WritesWhenOpen(b, h, |p|);
      var texts;
      texts, closed := WriteLogs(Replayed(b, p), b(p), Pos(b, p), key, Written(b, p, key), closed);
    }
  }

  /** In every reachable state the log of a stream holds exactly the texts its workflow has written, in order, in the
      format they were encoded in, and after them at most a close sentinel. */
  lemma StreamHoldsWritten(reg: Registry, ss: seq<Sys>, ls: seq<Label>, i: nat, w: Id, key: Key)
    returns (h: seq<Outcome>, closed: bool)
    requires Run(reg, ss, ls) && i < |ss| && w in ss[i].db
    ensures Complete(BodyOf(reg, ss[i].db[w]), ss[i].db[w].ops, h)
    ensures Logs(Log(ss[i].db[w].streams, key), Written(BodyOf(reg, ss[i].db[w]), h, key), closed)
  {
    RunKeeps(reg, ss, ls, i);
    var x := ss[i].db[w];
    assert WorkflowOk(reg, x);
    h :| Frontier(BodyOf(reg, x), x, h);
    closed := LogIsWritten(BodyOf(reg, x), h, key);
  }

  /** `vs` are the values behind the texts. */
  ghost predicate AllEncode(texts: seq<string>, vs: seq<Json.Value>, d: nat) {
    |texts| == |vs| && forall k :: 0 <= k < |vs| ==> Encodes(texts[k], vs[k], d)
  }

  /** `decode` decodes an entry by its own format. */
  ghost predicate DecodesByFormat(decode: StreamEntry -> Result<Json.Value, string>, d: nat, lower: Lower) {
    forall e: StreamEntry, v :: DecodesTo(e.value, e.format, d, lower, v) ==> decode(e) == Ok(v)
  }

  /** The values a log holds, for readers that decode so. */
  ghost predicate HoldsValues(
    log: seq<StreamEntry>, vs: seq<Json.Value>, decode: StreamEntry -> Result<Json.Value, string>)
  {
    forall k :: 0 <= k < |log| && log[k].value != SENTINEL ==> k < |vs| && decode(log[k]) == Ok(vs[k])
  }

  lemma LogDecodes(
    log: seq<StreamEntry>, texts: seq<string>, closed: bool, vs: seq<Json.Value>, d: nat, lower: Lower,
    decode: StreamEntry -> Result<Json.Value, string>)
    requires Logs(log, texts, closed) && AllEncode(texts, vs, d) && DecodesByFormat(decode, d, lower)
    ensures HoldsValues(log, vs, decode)
  {
    forall k | 0 <= k < |log| && log[k].value != SENTINEL ensures k < |vs| && decode(log[k]) == Ok(vs[k]) {
      if k < |vs| {
        assert Encodes(texts[k], vs[k], d);
        EncodedDecodes(texts[k], vs[k], d, lower);
      }
    }
  }

  /** What a reader gathers from such a log: a piece of the values, and once it meets the sentinel all from its first
      offset on. */
  lemma GatheredValues(
    log: seq<StreamEntry>, vs: seq<Json.Value>, decode: StreamEntry -> Result<Json.Value, string>,
    from: int, values: seq<Json.Value>, cursor: int, n: nat)
    requires HoldsValues(log, vs, decode) && Gathered(log, decode, from, values, cursor) && values != []
    requires n == StreamReader.Start(from)
    ensures n + |values| <= |vs| && values == vs[n..n + |values|]
  {
    forall k | 0 <= k < |values| ensures n + k < |vs| && values[k] == vs[n + k] {
      assert IsValueOf(log[n + k], decode, values[k]);
    }
    var last := |values| - 1;
    assert IsValueOf(log[n + last], decode, values[last]);
  }

  /**
   A reader that decodes each entry by its format gathers exactly the values the workflow has written by then, in order,
   whatever crashed and restarted: a piece of them while it reads, and all of them from its first offset on once
   it meets the sentinel.
   */
  lemma ReaderGetsValues(
    reg: Registry, ss: seq<Sys>, ls: seq<Label>, i: nat, w: Id, key: Key, h: seq<Outcome>, vs: seq<Json.Value>, d: nat,
    lower: Lower, decode: StreamEntry -> Result<Json.Value, string>, from: int, values: seq<Json.Value>, cursor: int)
    requires Run(reg, ss, ls) && i < |ss| && w in ss[i].db
    requires Complete(BodyOf(reg, ss[i].db[w]), ss[i].db[w].ops, h)
    requires AllEncode(Written(BodyOf(reg, ss[i].db[w]), h, key), vs, d) && DecodesByFormat(decode, d, lower)
    requires Gathered(Log(ss[i].db[w].streams, key), decode, from, values, cursor)
    ensures var n := StreamReader.Start(from);
      && (values == [] || (n + |values| <= |vs| && values == vs[n..n + |values|]))
      && (IsWhole(Log(ss[i].db[w].streams, key), decode, from, values) ==> n <= |vs| && values == vs[n..])
  {
    var g, closed := StreamHoldsWritten(reg, ss, ls, i, w, key);
    CompleteUnique(BodyOf(reg, ss[i].db[w]), ss[i].db[w].ops, g, h);
    var log := Log(ss[i].db[w].streams, key);
    LogDecodes(log, Written(BodyOf(reg, ss[i].db[w]), h, key), closed, vs, d, lower, decode);
    if values != [] {
      GatheredValues(log, vs, decode, from, values, cursor, StreamReader.Start(from));
    }
    if IsWhole(log, decode, from, values) {
      WholeValues(log, Written(BodyOf(reg, ss[i].db[w]), h, key), closed, vs, d, decode, from, values);
    }
  }

  /** A log with a sentinel is closed, so it holds one entry more than there are values. */
  lemma WholeValues(
    log: seq<StreamEntry>, texts: seq<string>, closed: bool, vs: seq<Json.Value>, d: nat,
    decode: StreamEntry -> Result<Json.Value, string>, from: int, values: seq<Json.Value>)
    requires Logs(log, texts, closed) && AllEncode(texts, vs, d) && IsWhole(log, decode, from, values)
    ensures StreamReader.Start(from) + |values| == |vs|
  {
  }

  /** In every reachable state each checkpointed stream write has left one entry, and that decodes to the value it was
      given. */
  lemma WriteIsDelivered(
    reg: Registry, ss: seq<Sys>, ls: seq<Label>, i: nat, o: (Id, nat), a: Action, v: Json.Value, d: nat, lower: Lower)
    returns (offset: nat)
    requires Run(reg, ss, ls) && i < |ss| && Performed(reg, ss[i].db, o, a) && a.Write? && Encodes(a.text, v, d)
    ensures var streams := ss[i].db[o.0].streams;
      && StreamAt(streams, o.1) == {(a.key, offset)} && (a.key, offset) in streams
      && DecodesTo(streams[(a.key, offset)].value, streams[(a.key, offset)].format, d, lower, v)
  {
    var h := ExactlyOnceEffects(reg, ss, ls, i, o.0);
    var b, x := BodyOf(reg, ss[i].db[o.0]), ss[i].db[o.0];
    var g :| Reads(b, x.ops, g, o.1, a);
    TraceIsPrefix(b, x.ops, h, g);
    assert g != h;
    assert h[..|g|] == g;
    assert EffectOnce(OutputsOf(x), a, o.1);
    offset :| StreamAt(x.streams, o.1) == {(a.key, offset)} && (a.key, offset) in x.streams
      && x.streams[(a.key, offset)] == Entry(a.text, o.1, Some(PORTABLE));
    EncodedDecodes(a.text, v, d, lower);
  }

  // ---- events and messages --------------------------------------------------------------------------------

  /** The outcome is a value that decodes to `v`. */
  predicate Delivers(o: Outcome, d: nat, lower: Lower, v: Json.Value) {
    o.Value? && o.data.Some? && o.data.value.Text? && DecodesTo(o.data.value.text, o.format, d, lower, v)
  }

  /** Whatever `get_event` returns to any execution decodes to the value that was set last in some state so far. */
  lemma EventIsDelivered(
    reg: Registry, ss: seq<Sys>, ls: seq<Label>, i: nat, e: nat, k: nat, target: Id, key: Key, timeout: nat, d: nat,
    lower: Lower)
    returns (j: nat, text: string)
    requires Run(reg, ss, ls) && i < |ss| && Passed(reg, ss[i], e, k, GetEvent(target, key, timeout))
    requires ss[i].execs[e].hist[k] != Missing
    ensures j <= i && WasSet(reg, ss, j, target, key, text)
    ensures forall v :: Encodes(text, v, d) ==> Delivers(ss[i].execs[e].hist[k], d, lower, v)
  {
    var deadline;
    j, text, deadline := EventIsTrue(reg, ss, ls, i, e, k, target, key, timeout);
    forall v | Encodes(text, v, d) ensures Delivers(ss[i].execs[e].hist[k], d, lower, v) {
      EncodedDecodes(text, v, d, lower);
    }
  }

  /** What one workflow sends, the `recv` that takes the message decodes, first time and on every replay. */
  lemma MessageIsDelivered(
    reg: Registry, ss: seq<Sys>, ls: seq<Label>, i: nat, j: nat, w: Id, u: string, e: nat, k: nat, o: (Id, nat),
    v: Json.Value, d: nat, lower: Lower)
    requires Run(reg, ss, ls) && Lives(ss, w, i, j) && Executing(ss, i, e, w) && k < |ss[i].execs[e].hist|
    requires BodyOf(reg, ss[j].db[w])(ss[i].execs[e].hist[..k]).Recv?
    requires IsTaken(ss[j], u, (w, Pos(BodyOf(reg, ss[j].db[w]), ss[i].execs[e].hist[..k])))
    requires IsSent(ss[j], u, o) && o in ss[j].own && ss[j].own[o].Send? && Encodes(ss[j].own[o].message, v, d)
    ensures ss[j].own[o].dest == w && Delivers(ss[i].execs[e].hist[k], d, lower, v)
  {
    RecvReplaysSame(reg, ss, ls, i, j, w, u, e, k);
    SendExactlyOnce(reg, ss, ls, j);
    assert Carries(ss[j].db[w].inbox[u], ss[j].own[o]);
    EncodedDecodes(ss[j].own[o].message, v, d, lower);
  }
}
