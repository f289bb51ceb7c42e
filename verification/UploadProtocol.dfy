/**
 The inventory upload as steps of informers, agent, network and control plane.

 One process lifetime that starts with an empty spill file. Between any two steps of the run
 loop the informers may change their caches, deliver notifications and so enqueue events. A
 batch on the wire may be applied any number of times before its send returns, with or without
 an error, and a batch whose send failed may still be applied at any later time.
 */
module UploadProtocol {
  import opened Options
  import opened Inventory
  import opened Batching

  datatype Config = Config(capacity: nat, maxBytes: int)

  /** Where the run loop is. */
  datatype Phase =
    | Top                                            // about to look at needSnapshot, or to take
    | Reading(read: seq<Event>)                      // inside Snapshot(): listing the caches
    | Snapshotting(rest: seq<Event>, applied: bool)  // sending what the snapshot returned
    | Sending(batch: seq<Event>, applied: bool)      // sending deltas; applied last of all batches or not

  /** One send: what the snapshot since the previous one listed, and the queue the batch was cut from. */
  datatype Attempt = Attempt(
    number: int, events: seq<Event>, full: bool, ok: bool, listed: Option<seq<Event>>, queue: seq<Event>)

  /** What happened so far; the agent keeps none of it. */
  datatype History = History(
    touched: set<Ref>,       // refs whose cached object ever changed
    toMemory: seq<Event>,    // events enqueued into the buffer, in order
    toSpill: seq<Event>,     // events enqueued into the spill file, in order
    acked: seq<Event>,       // delta events whose send returned without error
    fromSpill: seq<bool>,    // for acked + in flight + buffer: did it come through the spill file
    attempts: seq<Attempt>,  // every send, in order
    listed: Option<seq<Event>>,  // what the snapshot since the last send listed
    cut: seq<Event>)             // the buffer the last delta batch was cut from

  datatype State = State(
    cache: Table,
    notices: seq<Event>,  // cache changes whose handler has not run yet
    buf: seq<Event>,
    spill: seq<Event>,
    phase: Phase,
    needSnapshot: bool,
    seqNo: int,
    server: Table,
    past: History)

  datatype Action =
    | Change(event: Event)                 // an informer cache changes
    | Deliver(i: nat)                      // the handler of a pending change runs: Enqueue
    | BeginSnapshot
    | ReadObject(ref: Ref, timestamp: int)
    | EndRead
    | Arrive                               // the control plane applies the batch on the wire
    | ArriveLate(i: nat)                   // the control plane applies a batch whose send failed
    | Return(ok: bool)                     // the send returns, nil error or not
    | SnapshotDone
    | Take

  function Init(server: Table, seqNo: int): State {
    State(map[], [], [], [], Top, true, seqNo, server, History({}, [], [], [], [], [], None, []))
  }

  function InFlight(s: State): seq<Event> {
    if s.phase.Sending? then s.phase.batch else []
  }

  /** Everything behind the batch in flight, in delivery order. */
  function Queued(s: State): seq<Event> {
    s.buf + s.spill + s.notices
  }

  /** Everything still to be applied, in delivery order. */
  function Pending(s: State): seq<Event> {
    InFlight(s) + Queued(s)
  }

  /** The batch on the wire. */
  function OnWire(c: Config, s: State): seq<Event> {
    match s.phase
    case Sending(batch, _) => batch
    case Snapshotting(rest, _) =>
      if rest == [] then [] else rest[..FullLen(rest, BATCH_SIZE, c.maxBytes)]
    case _ => []
  }

  predicate Enabled(c: Config, s: State, a: Action) {
    match a
    case Change(e) => e.op != Sync
    case Deliver(i) => i < |s.notices| && !Mentions(s.notices[..i], s.notices[i].ref)
    case BeginSnapshot => s.phase == Top && s.needSnapshot
    case ReadObject(ref, _) => s.phase.Reading? && ref in s.cache
    case EndRead => s.phase.Reading?
    case Arrive => OnWire(c, s) != []
    case ArriveLate(i) => i < |s.past.attempts| && !s.past.attempts[i].ok
    case Return(_) => OnWire(c, s) != []
    case SnapshotDone => s.phase.Snapshotting? && s.phase.rest == []
    case Take => s.phase == Top && !s.needSnapshot
  }

  function Without<T>(xs: seq<T>, i: nat): seq<T>
    requires i < |xs|
  {
    xs[..i] + xs[i + 1..]
  }

  /** Something else was applied since. */
  function Outdated(p: Phase): Phase {
    match p
    case Snapshotting(rest, _) => Snapshotting(rest, false)
    case Sending(batch, _) => Sending(batch, false)
    case _ => p
  }

  // The parts of a step that belong to the agent; the uploader's methods are specified by them.

  function EnqueueBuf(c: Config, buf: seq<Event>, e: Event): seq<Event> {
    if |buf| < c.capacity then buf + [e] else buf
  }

  function EnqueueSpill(c: Config, buf: seq<Event>, spill: seq<Event>, e: Event): seq<Event> {
    if |buf| < c.capacity then spill else spill + [e]
  }

  /** The buffer `take` cuts from: the spill file is replayed when the buffer has drained. */
  function Replayed(buf: seq<Event>, spill: seq<Event>): seq<Event> {
    if buf == [] then spill else buf
  }

  /** The send that returns now. */
  function Made(c: Config, s: State, ok: bool): Attempt {
    Attempt(s.seqNo + 1, OnWire(c, s), s.phase.Snapshotting?, ok, s.past.listed,
            if s.phase.Snapshotting? then s.phase.rest else s.past.cut)
  }

  function Step(c: Config, s: State, a: Action): State {
    if !Enabled(c, s, a) then s else
    match a
    case Change(e) =>
      s.(cache := Write(s.cache, e.ref, Effect(e)),
         notices := s.notices + [e],
         past := s.past.(touched := s.past.touched + {e.ref}))
    case Deliver(i) =>
      var e := s.notices[i];
      var fits := |s.buf| < c.capacity;
      s.(notices := Without(s.notices, i),
         buf := EnqueueBuf(c, s.buf, e),
         spill := EnqueueSpill(c, s.buf, s.spill, e),
         past := if fits
                 then s.past.(toMemory := s.past.toMemory + [e], fromSpill := s.past.fromSpill + [false])
                 else s.past.(toSpill := s.past.toSpill + [e]))
    case BeginSnapshot => s.(phase := Reading([]))
    case ReadObject(ref, t) =>
      s.(phase := Reading(s.phase.read + [Event(Op.Sync, ref, s.cache[ref], t)]))
    case EndRead =>
      s.(phase := Snapshotting(s.phase.read, false), past := s.past.(listed := Some(s.phase.read)))
    case Arrive =>
      s.(server := ApplyBatch(s.server, OnWire(c, s)), phase := s.phase.(applied := true))
    case ArriveLate(i) =>
      s.(server := ApplyBatch(s.server, s.past.attempts[i].events), phase := Outdated(s.phase))
    case Return(ok) =>
      var s' := s.(seqNo := if ok then s.seqNo + 1 else s.seqNo,
                   past := s.past.(attempts := s.past.attempts + [Made(c, s, ok)], listed := None));
      if s.phase.Sending? then
        if ok then s'.(phase := Top, past := s'.past.(acked := s.past.acked + s.phase.batch))
        else s'.(phase := Top, buf := s.phase.batch + s.buf, needSnapshot := true)
      else if ok then s'.(phase := Snapshotting(s.phase.rest[|OnWire(c, s)|..], false))
      else s'.(phase := Top)
    case SnapshotDone => s.(phase := Top, needSnapshot := false)
    case Take =>
      var all := Replayed(s.buf, s.spill);
      if all == [] then s else
      var n := FullLen(all, BATCH_SIZE, c.maxBytes);
      var replayed := s.buf == [];
      s.(phase := Sending(all[..n], false),
         buf := all[n..],
         spill := if replayed then [] else s.spill,
         past := s.past.(cut := all,
                         fromSpill := if replayed then s.past.fromSpill + seq(|s.spill|, _ => true)
                                      else s.past.fromSpill))
  }

  function Run(c: Config, s: State, actions: seq<Action>): State {
    if actions == [] then s
    else Step(c, Run(c, s, actions[..|actions| - 1]), actions[|actions| - 1])
  }

  ghost predicate Linked(c: Config, s: State, a: Action, s': State) {
    s' == Step(c, s, a)
  }

  /** The states a sequence of actions passes through. */
  ghost predicate Chain(c: Config, states: seq<State>, actions: seq<Action>) {
    && |states| == |actions| + 1
    && forall i {:trigger Linked(c, states[i], actions[i], states[i + 1])} | 0 <= i < |actions| ::
         Linked(c, states[i], actions[i], states[i + 1])
  }

  lemma {:induction false} ChainIsRun(c: Config, states: seq<State>, actions: seq<Action>)
    requires Chain(c, states, actions)
    ensures states[|actions|] == Run(c, states[0], actions)
    decreases |actions|
  {
    if actions != [] {
      var n := |actions| - 1;
      forall i | 0 <= i < n ensures Linked(c, states[..n + 1][i], actions[..n][i], states[..n + 1][i + 1]) {
        assert Linked(c, states[i], actions[i], states[i + 1]);
      }
      ChainIsRun(c, states[..n + 1], actions[..n]);
      assert Linked(c, states[n], actions[n], states[n + 1]);
    }
  }

  // ------------------------------------------------------------- agreement

  /** Once everything pending is applied, the control plane agrees with the cache on every touched ref. */
  ghost predicate Agree(s: State) {
    forall r | r in s.past.touched :: RowAfter(s.server, Pending(s), r) == Row(s.cache, r)
  }

  /**
   The three steps that can break agreement, and exactly when they do not: an event put into
   memory must not overtake a spilled event for the same ref (unless a later change is still to
   come, or both write the same); a delta batch that returned without error must have been
   applied (or its rows are there already, or are written again later); and a batch that is
   applied late must write only rows that are there already or are written again later.
   */
  ghost predicate Harmless(c: Config, s: State, a: Action) {
    match a
    case Deliver(i) =>
      Enabled(c, s, a) && |s.buf| < c.capacity ==>
        var e := s.notices[i];
        || !Mentions(s.spill, e.ref)
        || Mentions(Without(s.notices, i), e.ref)
        || LastEffect(s.spill, e.ref) == Some(Effect(e))
    case Return(ok) =>
      Enabled(c, s, a) && s.phase.Sending? && ok ==>
        forall r | Mentions(s.phase.batch, r) ::
          || Mentions(Queued(s), r)
          || Some(Row(s.server, r)) == LastEffect(s.phase.batch, r)
    case ArriveLate(i) =>
      Enabled(c, s, a) ==>
        var late := s.past.attempts[i].events;
        forall r | Mentions(late, r) :: Mentions(Pending(s), r) || Some(Row(s.server, r)) == LastEffect(late, r)
    case _ => true
  }

  function SnapshotEvents(s: State): seq<Event> {
    match s.phase
    case Reading(read) => read
    case Snapshotting(rest, _) => rest
    case _ => []
  }

  ghost predicate AllTouched(events: seq<Event>, touched: set<Ref>) {
    forall e | e in events :: e.ref in touched
  }

  /** A snapshot event is current, or a change of the same ref is still queued behind it. */
  ghost predicate Fresh(s: State, e: Event) {
    && e.op == Op.Sync
    && e.ref in s.past.touched
    && (Row(s.cache, e.ref) == Some(e.payload) || Mentions(Queued(s), e.ref))
  }

  /** What every step keeps, harmless or not. */
  ghost predicate Inv(initial: Table, s: State) {
    && AllTouched(Pending(s), s.past.touched)
    && s.cache.Keys <= s.past.touched
    && (forall r | r !in s.past.touched :: Row(s.server, r) == Row(initial, r))
    && (forall e | e in SnapshotEvents(s) :: Fresh(s, e))
    && (forall a | a in s.past.attempts :: AllTouched(a.events, s.past.touched))
    && (s.phase.Sending? ==> s.phase.batch != [])
    && (s.phase.Sending? && s.phase.applied ==>
          forall r | Mentions(s.phase.batch, r) :: Some(Row(s.server, r)) == LastEffect(s.phase.batch, r))
  }
}
