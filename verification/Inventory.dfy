/** Inventory events, and the control plane's view of them. */
module Inventory {
  import opened Options

  newtype byte = x: int | 0 <= x < 256
  type Bytes = seq<byte>

  datatype Ref = Ref(group: string, version: string, resource: string, namespace: string, name: string)

  datatype Op = Add | Update | Delete | Sync

  datatype Event = Event(op: Op, ref: Ref, payload: Bytes, timestamp: int)

  type Table = map<Ref, Bytes>

  function Row(t: Table, r: Ref): Option<Bytes> {
    if r in t then Some(t[r]) else None
  }

  /** The row an event leaves behind: a delete removes it, everything else writes it. */
  function Effect(e: Event): Option<Bytes> {
    if e.op == Delete then None else Some(e.payload)
  }

  function Write(t: Table, r: Ref, v: Option<Bytes>): Table {
    match v
    case None => t - {r}
    case Some(p) => t[r := p]
  }

  /** The server applies a batch in one transaction, last write wins per ref. */
  function ApplyBatch(t: Table, events: seq<Event>): Table {
    if events == [] then t
    else Write(ApplyBatch(t, events[..|events| - 1]), events[|events| - 1].ref, Effect(events[|events| - 1]))
  }

  predicate Mentions(events: seq<Event>, r: Ref) {
    exists i :: 0 <= i < |events| && events[i].ref == r
  }

  /** What a queue of events leaves at `r`, if it touches `r` at all. */
  function LastEffect(events: seq<Event>, r: Ref): Option<Option<Bytes>> {
    if events == [] then None
    else if events[|events| - 1].ref == r then Some(Effect(events[|events| - 1]))
    else LastEffect(events[..|events| - 1], r)
  }

  /** The row at `r` once the queue has been applied. */
  function RowAfter(t: Table, events: seq<Event>, r: Ref): Option<Bytes> {
    match LastEffect(events, r)
    case None => Row(t, r)
    case Some(v) => v
  }

  /** Applying a batch is, ref by ref, its last event. */
  lemma {:induction false} ApplyAt(t: Table, events: seq<Event>, r: Ref)
    ensures Row(ApplyBatch(t, events), r) == RowAfter(t, events, r)
  {
    if events != [] {
      ApplyAt(t, events[..|events| - 1], r);
    }
  }

  lemma {:induction false} LastMentions(events: seq<Event>, r: Ref)
    ensures LastEffect(events, r).Some? <==> Mentions(events, r)
  {
    if events != [] {
      var init := events[..|events| - 1];
      LastMentions(init, r);
      if Mentions(init, r) {
        var i :| 0 <= i < |init| && init[i].ref == r;
        assert events[i].ref == r;
      }
      if Mentions(events, r) && events[|events| - 1].ref != r {
        var i :| 0 <= i < |events| && events[i].ref == r;
        assert init[i].ref == r;
      }
    }
  }

  /** In a longer queue the later part decides. */
  lemma {:induction false} LastInConcat(a: seq<Event>, b: seq<Event>, r: Ref)
    ensures LastEffect(a + b, r) == if LastEffect(b, r).Some? then LastEffect(b, r) else LastEffect(a, r)
    decreases |b|
  {
    if b == [] {
      assert a + b == a;
    } else {
      assert (a + b)[..|a + b| - 1] == a + b[..|b| - 1];
      LastInConcat(a, b[..|b| - 1], r);
    }
  }

  lemma MentionsConcat(a: seq<Event>, b: seq<Event>, r: Ref)
    ensures Mentions(a + b, r) <==> Mentions(a, r) || Mentions(b, r)
  {
    LastMentions(a + b, r);
    LastMentions(a, r);
    LastMentions(b, r);
    LastInConcat(a, b, r);
  }
}
