/**
 The uploader as it is written: fields changed in place by `Enqueue`, `take`, `requeueFront`
 and `sendBatch`, and the retry loop around them. A ghost trace records which protocol step
 each piece of code is, so that everything proved of every protocol run holds of the loop.
 */
module Uploader {
  import opened Options
  import opened Inventory
  import opened Batching
  import opened UploadProtocol
  import Convergence
  import opened Snapshots
  import Decimal

  /** What the outside world does around one send: other goroutines, the network, the disk. */
  datatype Tick = Tick(
    before: seq<Action>,  // cache changes, handler calls and late arrivals
    arrives: bool,        // the control plane applies the batch
    after: seq<Action>,   // more of them, before the send returns
    ok: bool,             // the send returns a nil error
    persisted: bool)      // writing the sequence file works

  /** An object a snapshot lists, and what happens before it lists the next. */
  datatype Listed = Listed(ref: Ref, timestamp: int, after: seq<Action>)

  /** What happens around one round of the loop. */
  datatype Turn = Turn(
    first: seq<Action>,     // before it looks whether a snapshot is due
    listing: seq<Listed>,   // while the snapshot lists the caches
    sends: nat -> Tick,     // around the sends of the snapshot
    between: seq<Action>,   // before it takes a batch
    delta: Tick,            // around the send of the batch
    requeue: seq<Action>)   // between a failed send and putting the batch back

  /** Nothing interferes, the batch is applied and the send succeeds. */
  predicate Smooth(t: Tick) {
    t.before == [] && t.after == [] && t.arrives && t.ok
  }

  ghost predicate SmoothTurn(x: Turn) {
    && x.first == [] && x.between == [] && x.requeue == [] && Smooth(x.delta)
    && (forall k | 0 <= k < |x.listing| :: x.listing[k].after == [])
    && forall n :: Smooth(x.sends(n))
  }

  predicate NoneLate(script: seq<Action>) {
    forall k | 0 <= k < |script| :: !script[k].ArriveLate?
  }

  /** The batch is applied before the send returns, and no late one comes in between. */
  predicate Lands(t: Tick) {
    t.arrives && NoneLate(t.before) && NoneLate(t.after)
  }

  /** Every ref is listed, and nothing arrives late meanwhile. */
  predicate Complete(listing: seq<Listed>, refs: set<Ref>) {
    && (forall r | r in refs :: exists k | 0 <= k < |listing| :: listing[k].ref == r)
    && forall k | 0 <= k < |listing| :: NoneLate(listing[k].after)
  }

  /** The steps performed so far, and the states they went through. */
  datatype Log = Log(trace: seq<Action>, states: seq<State>)

  /** Looking into a log; most of the code only needs that it grows. */
  ghost predicate Opened(l: Log) {
    true
  }

  ghost predicate Extends(l: Log, m: Log) {
    && |l.trace| <= |m.trace|
    && forall k {:trigger Opened(k)} | Opened(k) && k == l :: k.trace <= m.trace && k.states <= m.states
  }

  lemma ExtendedBy(l: Log, a: Action, s: State)
    ensures Extends(l, Log(l.trace + [a], l.states + [s]))
  {
  }

  lemma ExtendsOn(l: Log, m: Log, n: Log)
    requires Extends(l, m) && Extends(m, n)
    ensures Extends(l, n)
  {
    assert Opened(l) && Opened(m);
  }

  lemma ChainOn(c: Config, l: Log, s: State, a: Action, next: State)
    requires Chain(c, l.states, l.trace) && l.states[|l.trace|] == s && next == Step(c, s, a)
    ensures Chain(c, l.states + [next], l.trace + [a])
  {
    var states, trace := l.states + [next], l.trace + [a];
    forall i | 0 <= i < |trace| ensures Linked(c, states[i], trace[i], states[i + 1]) {
      if i < |l.trace| {
        assert Linked(c, l.states[i], l.trace[i], l.states[i + 1]);
      }
    }
  }

  class Uploader {
    const c: Config
    ghost const initial: State

    // shared with the informers
    var cache: Table
    var notices: seq<Event>

    // the uploader's own fields
    var buf: seq<Event>
    var spill: seq<Event>
    var seqNo: int
    var needSnapshot: bool
    var seqFile: Option<string>

    // the control plane
    ghost var server: Table

    // the protocol steps performed so far, and the states they went through
    ghost var log: Log
    ghost var model: State

    constructor (c: Config, ghost server: Table, seqNo: int, seqFile: Option<string>)
      ensures Valid() && model.phase == Top && this.c == c && log.trace == []
      ensures initial == Init(server, seqNo)
    {
      this.c, this.initial := c, Init(server, seqNo);
      cache, notices, buf, spill := map[], [], [], [];
      this.seqNo, needSnapshot, this.seqFile, this.server := seqNo, true, seqFile, server;
      log, model := Log([], [Init(server, seqNo)]), Init(server, seqNo);
    }

    ghost predicate Traced()
      reads this
    {
      && Chain(c, log.states, log.trace) && log.states[0] == initial && log.states[|log.trace|] == model
      && initial == Init(initial.server, initial.seqNo)
    }

    /** The fields are those of the protocol state the trace leads to. */
    ghost predicate Valid()
      reads this
    {
      && Traced()
      && model.cache == cache && model.notices == notices && model.buf == buf && model.spill == spill
      && model.seqNo == seqNo && model.needSnapshot == needSnapshot && model.server == server
    }

    /** Steps were added, and none was taken back. */
    twostate predicate Went()
      reads this
    {
      Extends(old(log), log)
    }

    /** This one step was added. */
    twostate predicate Added(a: Action)
      reads this
    {
      Went() && |log.trace| == |old(log.trace)| + 1 && log.trace[|old(log.trace)|] == a
    }

    /** Record that the code just performed `a`. */
    ghost method Did(a: Action)
      requires Traced()
      modifies this`log, this`model
      ensures Traced() && model == Step(c, old(model), a)
      ensures Added(a)
    {
      var next := Step(c, model, a);
      ChainOn(c, log, model, a, next);
      ExtendedBy(log, a, next);
      log, model := Log(log.trace + [a], log.states + [next]), next;
    }

    /** What the loop did is a run of the protocol, with all that holds of runs. */
    lemma IsRun()
      requires Traced()
      ensures model == UploadProtocol.Run(c, initial, log.trace)
      ensures Inv(initial.server, model) && WireApplied(c, model)
    {
      ChainIsRun(c, log.states, log.trace);
      Convergence.RunKeeps(initial.server, initial.seqNo, c, log.trace);
      RunApplies(c, initial.server, initial.seqNo, log.trace);
    }

    method Enqueue(ev: Event)
      modifies this`buf, this`spill
      ensures buf == EnqueueBuf(c, old(buf), ev)
      ensures spill == EnqueueSpill(c, old(buf), old(spill), ev)
      ensures |old(buf)| < c.capacity ==> buf == old(buf) + [ev] && spill == old(spill)
      ensures |old(buf)| >= c.capacity ==> buf == old(buf) && spill == old(spill) + [ev]
    {
      if |buf| < c.capacity {
        buf := buf + [ev];
      } else {
        spill := spill + [ev];
      }
    }

    ghost method DidTake(out: seq<Event>, rest: seq<Event>, spilled: seq<Event>)
      requires Traced() && model.phase == Top && !model.needSnapshot
      requires var all := Replayed(model.buf, model.spill);
               && out == (if all == [] then [] else all[..FullLen(all, BATCH_SIZE, c.maxBytes)])
               && rest == all[|out|..] && spilled == (if model.buf == [] then [] else model.spill)
      modifies this`log, this`model
      ensures Traced() && model.phase == if out == [] then Top else Sending(out, false)
      ensures model.buf == rest && model.spill == spilled
      ensures model.cache == old(model.cache) && model.notices == old(model.notices)
      ensures model.seqNo == old(model.seqNo) && !model.needSnapshot && model.server == old(model.server)
      ensures Added(Take)
    {
      Did(Take);
    }

    ghost method DidArrive(events: seq<Event>)
      requires Traced() && OnWire(c, model) == events != []
      modifies this`log, this`model
      ensures Traced()
      ensures model == old(model).(server := ApplyBatch(old(model.server), events),
                                   phase := old(model.phase).(applied := true))
      ensures old(model).phase.Snapshotting? ==> KeepsCover(old(model), model)
      ensures Added(Arrive)
    {
      if model.phase.Snapshotting? {
        ArriveCovers(c, model);
      }
      Did(Arrive);
    }

    ghost method DidReturn(ok: bool)
      requires Traced() && OnWire(c, model) != []
      modifies this`log, this`model
      ensures Traced()
      ensures model.cache == old(model.cache) && model.notices == old(model.notices)
      ensures model.spill == old(model.spill) && model.server == old(model.server)
      ensures model.seqNo == old(model.seqNo) + if ok then 1 else 0
      ensures old(model.phase).Sending? ==>
                && model.phase == Top
                && model.buf == (if ok then old(model.buf) else old(model.phase.batch + model.buf))
                && model.needSnapshot == (old(model.needSnapshot) || !ok)
      ensures old(model.phase).Snapshotting? ==>
                && model.phase == (if ok then Snapshotting(old(model.phase.rest[|OnWire(c, model)|..]), false) else Top)
                && model.buf == old(model.buf) && model.needSnapshot == old(model.needSnapshot)
      ensures old(model.phase).Snapshotting? && ok && old(model.phase).applied ==> KeepsCover(old(model), model)
      ensures Added(Return(ok))
    {
      if model.phase.Snapshotting? && ok && model.phase.applied {
        IsRun();
        ReturnCovers(initial.server, c, model);
      }
      Did(Return(ok));
    }

    /** Steps of the snapshot that only move the loop on. */
    ghost method DidMove(a: Action)
      requires Traced() && Enabled(c, model, a)
      requires a.BeginSnapshot? || a.ReadObject? || a.EndRead? || a.SnapshotDone?
      modifies this`log, this`model
      ensures Traced()
      ensures model == old(model).(
                phase := match a
                         case BeginSnapshot => Reading([])
                         case ReadObject(ref, t) =>
                           Reading(old(model.phase.read) + [Event(Op.Sync, ref, old(model.cache[ref]), t)])
                         case EndRead => Snapshotting(old(model.phase.read), false)
                         case _ => Top,
                needSnapshot := old(model.needSnapshot) && !a.SnapshotDone?,
                past := model.past)
      ensures !a.BeginSnapshot? ==> KeepsCover(old(model), model)
      ensures a.ReadObject? ==> Covers(model, a.ref)
      ensures Added(a)
    {
      if !a.BeginSnapshot? {
        ReadCovers(c, model, a);
      }
      Did(a);
    }

    /** Pop a batch from the front, replaying the spill file first when the buffer has drained. */
    method TakeBatch() returns (out: seq<Event>)
      requires Valid() && model.phase == Top && !needSnapshot
      modifies this`buf, this`spill, this`log, this`model
      ensures Valid() && Added(Take)
      ensures model.phase == if out == [] then Top else Sending(out, false)
      ensures out + buf + spill == old(buf + spill)
      ensures old(buf + spill) != [] ==> Legal(out, BATCH_SIZE, c.maxBytes)
    {
      ghost var all := Replayed(buf, spill);
      ghost var batch := if all == [] then [] else all[..FullLen(all, BATCH_SIZE, c.maxBytes)];
      DidTake(batch, all[|batch|..], if buf == [] then [] else spill);
      if buf == [] {
        ReplaySpill();
      }
      assert buf == all;
      out := PopBatch();
      TakenInOrder(c, old(buf), old(spill), out, buf, spill);
    }

    /** Load the spill file back into the buffer and remove it. */
    method ReplaySpill()
      modifies this`buf, this`spill
      ensures buf == old(buf + spill) && spill == []
    {
      buf, spill := buf + spill, [];
    }

    /** Cut one batch off the front of the buffer. */
    method PopBatch() returns (out: seq<Event>)
      modifies this`buf
      ensures out + buf == old(buf) && buf == old(buf)[|out|..]
      ensures out == if old(buf) == [] then [] else old(buf)[..FullLen(old(buf), BATCH_SIZE, c.maxBytes)]
    {
      if buf == [] {
        return [];
      }
      var n := BatchLen(buf, BATCH_SIZE, c.maxBytes);
      out := buf[..n];
      buf := buf[n..];
    }

    method RequeueFront(events: seq<Event>)
      modifies this`buf
      ensures buf == events + old(buf)
    {
      buf := events + buf;
    }

    /** One step of another goroutine or of the network: a cache changes, a handler enqueues, a batch arrives late. */
    method Disturb(a: Action)
      requires Valid()
      modifies this`cache, this`notices, this`buf, this`spill, this`server, this`log, this`model
      ensures Valid() && Went()
      ensures model.phase == old(model.phase) || (a.ArriveLate? && model.phase == Outdated(old(model.phase)))
      ensures !a.ArriveLate? ==> KeepsCover(old(model), model) && server == old(server)
    {
      match a {
        case Change(e) =>
          if e.op != Op.Sync {
            ChangeCovers(c, model, e);
            cache := Write(cache, e.ref, Effect(e));
            notices := notices + [e];
            Did(a);
          }
        case Deliver(i) =>
          if i < |notices| && !Mentions(notices[..i], notices[i].ref) {
            DeliverCovers(c, model, i);
            var e := notices[i];
            notices := Without(notices, i);
            Enqueue(e);
            Did(a);
          }
        case ArriveLate(i) =>
          if Enabled(c, model, a) {
            server := ApplyBatch(server, model.past.attempts[i].events);
            Did(a);
          }
        case _ =>
      }
    }

    /** Other goroutines and the network at work. */
    method Interfere(script: seq<Action>)
      requires Valid()
      modifies this`cache, this`notices, this`buf, this`spill, this`server, this`log, this`model
      ensures Valid() && Went() && (model.phase == old(model.phase) || model.phase == Outdated(old(model.phase)))
      ensures NoneLate(script) ==> model.phase == old(model.phase) && KeepsCover(old(model), model)
      ensures script == [] ==> unchanged(this)
    {
      for k := 0 to |script|
        invariant Valid() && Went() && (model.phase == old(model.phase) || model.phase == Outdated(old(model.phase)))
        invariant NoneLate(script[..k]) ==> model.phase == old(model.phase) && KeepsCover(old(model), model)
        invariant k == 0 ==> unchanged(this)
      {
        ghost var before, l := model, log;
        Disturb(script[k]);
        ExtendsOn(old(log), l, log);
        assert NoneLate(script[..k + 1]) ==> NoneLate(script[..k]) && !script[k].ArriveLate? by {
          assert script[..k + 1] == script[..k] + [script[k]];
          assert NoneLate(script[..k + 1]) ==> !script[..k + 1][k].ArriveLate?;
          assert NoneLate(script[..k + 1]) ==> forall j | 0 <= j < k :: script[..k][j] == script[..k + 1][j];
        }
        if NoneLate(script[..k + 1]) {
          CoverChain(old(model), before, model);
        }
      }
      assert script[..|script|] == script;
    }

    /** The batch is on the wire: it may reach the control plane while others run. */
    method Transmit(events: seq<Event>, t: Tick)
      requires Valid() && OnWire(c, model) == events != []
      modifies this`cache, this`notices, this`buf, this`spill, this`server, this`log, this`model
      ensures Valid() && Went() && OnWire(c, model) == events && SamePhase(old(model.phase), model.phase)
      ensures Lands(t) ==> model.phase == old(model.phase).(applied := true)
      ensures Lands(t) && old(model.phase).Snapshotting? ==> KeepsCover(old(model), model)
      ensures Smooth(t) ==> buf == old(buf) && spill == old(spill) && server == ApplyBatch(old(server), events)
    {
      Interfere(t.before);
      ghost var sent, l := model, log;
      if t.arrives {
        server := ApplyBatch(server, events);
        DidArrive(events);
        ExtendsOn(old(log), l, log);
      }
      ghost var arrived, m := model, log;
      Interfere(t.after);
      ExtendsOn(old(log), m, log);
      if Lands(t) && old(model.phase).Snapshotting? {
        CoverChain(old(model), sent, arrived);
        CoverChain(old(model), arrived, model);
      }
    }

    /** Send a batch under the next number; the number advances and is persisted only after a nil error. */
    method SendBatch(events: seq<Event>, t: Tick) returns (ok: bool)
      requires Valid() && OnWire(c, model) == events != []
      modifies this
      ensures Valid() && Went() && ok == t.ok && needSnapshot == old(needSnapshot)
      ensures ok ==> |log.trace| > |old(log.trace)| && log.trace[|log.trace| - 1] == Return(true)
      ensures ok ==> model.phase == match old(model.phase)
                                    case Snapshotting(rest, _) => Snapshotting(rest[|events|..], false)
                                    case _ => Top
      ensures ok ==> seqNo == old(seqNo) + 1 && (t.persisted ==> seqFile == Some(Decimal.FormatInt(seqNo)))
      ensures !ok ==> OnWire(c, model) == events && seqNo == old(seqNo) && seqFile == old(seqFile)
      ensures !ok ==> SamePhase(old(model.phase), model.phase)
      ensures ok && Lands(t) && old(model.phase).Snapshotting? ==> KeepsCover(old(model), model)
      ensures Smooth(t) ==> buf == old(buf) && spill == old(spill) && server == ApplyBatch(old(server), events)
    {
      Transmit(events, t);
      ok := t.ok;
      if ok {
        ghost var landed, l := model, log;
        seqNo := seqNo + 1;
        if t.persisted {
          seqFile := Some(Decimal.FormatInt(seqNo));
        }
        DidReturn(true);
        ExtendsOn(old(log), l, log);
        if Lands(t) && old(model.phase).Snapshotting? {
          CoverChain(old(model), landed, model);
        }
      }
    }

    /** List one object, if it is still cached; other goroutines may run before the next. */
    method ListOne(x: Listed, read: seq<Event>) returns (events: seq<Event>)
      requires Valid() && model.phase == Reading(read)
      modifies this`cache, this`notices, this`buf, this`spill, this`server, this`log, this`model
      ensures Valid() && Went() && model.phase == Reading(events)
      ensures NoneLate(x.after) ==> CoversAlso(old(model), model, x.ref)
      ensures x.after == [] ==> buf == old(buf) && spill == old(spill)
    {
      events := read;
      if x.ref in cache {
        events := events + [Event(Op.Sync, x.ref, cache[x.ref], x.timestamp)];
        DidMove(ReadObject(x.ref, x.timestamp));
      }
      ghost var l := log;
      Interfere(x.after);
      ExtendsOn(old(log), l, log);
    }

    /** List the caches, object by object. */
    method ListCaches(listing: seq<Listed>) returns (events: seq<Event>)
      requires Valid() && model.phase == Top && needSnapshot
      modifies this`cache, this`notices, this`buf, this`spill, this`server, this`log, this`model
      ensures Valid() && Went() && model.phase == Snapshotting(events, false) && |log.trace| > |old(log.trace)|
      ensures Complete(listing, old(cache).Keys) ==> AllCovered(model)
      ensures (forall k | 0 <= k < |listing| :: listing[k].after == []) ==> buf == old(buf) && spill == old(spill)
    {
      DidMove(BeginSnapshot);
      events := [];
      for k := 0 to |listing|
        invariant Valid() && Went() && model.phase == Reading(events) && |log.trace| > |old(log.trace)|
        invariant (forall i | 0 <= i < |listing| :: listing[i].after == []) ==> buf == old(buf) && spill == old(spill)
        invariant Complete(listing, old(cache).Keys) ==> CoveredSoFar(model, old(cache).Keys, listing[..k])
      {
        ghost var before, l := model, log;
        events := ListOne(listing[k], events);
        ExtendsOn(old(log), l, log);
        if Complete(listing, old(cache).Keys) {
          OneMoreListed(before, model, old(cache).Keys, listing, k);
        }
      }
      assert listing[..|listing|] == listing;
      ghost var l := log;
      DidMove(EndRead);
      ExtendsOn(old(log), l, log);
    }

    /**
     Send the full snapshot in batches. If it lists every cached object and every batch lands,
     each cached object ends up right at the control plane or has an event queued.
     */
    method SendSnapshot(listing: seq<Listed>, ticks: nat -> Tick) returns (ok: bool)
      requires Valid() && model.phase == Top && needSnapshot
      modifies this
      ensures Valid() && Went() && needSnapshot && |log.trace| > |old(log.trace)|
      ensures model.phase == if ok then Snapshotting([], false) else Top
      ensures !ok ==> (exists n: nat :: !ticks(n).ok) && log.trace[|log.trace| - 1] == Return(false)
      ensures ok && Complete(listing, old(cache).Keys) && (forall n :: Lands(ticks(n))) ==>
                forall r | r in cache :: Row(server, r) == Row(cache, r) || Mentions(buf + spill + notices, r)
      ensures (forall k | 0 <= k < |listing| :: listing[k].after == []) && (forall n :: Smooth(ticks(n))) ==>
                ok && buf == old(buf) && spill == old(spill)
    {
      var events := ListCaches(listing);
      ghost var l := log;
      ok := SendListed(events, ticks);
      ExtendsOn(old(log), l, log);
    }

    /** Send what a snapshot listed, batch by batch, until a send fails. */
    method SendListed(listed: seq<Event>, ticks: nat -> Tick) returns (ok: bool)
      requires Valid() && needSnapshot && model.phase == Snapshotting(listed, false)
      modifies this
      ensures Valid() && Went() && needSnapshot
      ensures model.phase == if ok then Snapshotting([], false) else Top
      ensures !ok ==> (exists n: nat :: !ticks(n).ok) && log.trace != [] && log.trace[|log.trace| - 1] == Return(false)
      ensures ok && AllCovered(old(model)) && (forall n :: Lands(ticks(n))) ==> AllCovered(model)
      ensures (forall n :: Smooth(ticks(n))) ==> ok && buf == old(buf) && spill == old(spill)
    {
      ghost var lands, smooth := forall n :: Lands(ticks(n)), forall n :: Smooth(ticks(n));
      var events, n := listed, 0;
      while events != []
        invariant Valid() && Went() && needSnapshot && model.phase == Snapshotting(events, false)
        invariant AllCovered(old(model)) && lands ==> AllCovered(model)
        invariant smooth ==> buf == old(buf) && spill == old(spill)
        decreases |events|
      {
        var len := BatchLen(events, BATCH_SIZE, c.maxBytes);
        ghost var l, s := log, model;
        ok := SendBatch(events[..len], ticks(n));
        ExtendsOn(old(log), l, log);
        if !ok {
          l := log;
          DidReturn(false);
          ExtendsOn(old(log), l, log);
          return;
        }
        assert lands ==> Lands(ticks(n));
        CoverKept(s, model);
        events := events[len..];
        n := n + 1;
      }
      ok := true;
    }

    /** One round of the loop: the snapshot if it is due, then one batch of deltas. */
    method Round(x: Turn) returns (ghost sent: seq<Event>, ghost v: Visit)
      requires Valid() && model.phase == Top
      modifies this
      ensures Valid() && Went() && model.phase == Top
      ensures v.end == |log.trace| && v.look >= |old(log.trace)| && Visited(log, x, v)
      ensures SmoothTurn(x) ==>
                && !needSnapshot
                && sent + buf + spill == old(buf + spill)
                && (old(buf + spill) != [] ==> Legal(sent, BATCH_SIZE, c.maxBytes))
    {
      sent := [];
      Interfere(x.first);
      ghost var look := log;
      var ok := SnapshotIfDue(x);
      ExtendsOn(old(log), look, log);
      ghost var done := log;
      if !ok {
        v := Visit(|look.trace|, None, None, |log.trace|);
        VisitFailed(look, log, x);
        return;
      }
      Interfere(x.between);
      ghost var take := log;
      sent := SendDeltas(x.delta, x.requeue);
      ExtendsOn(old(log), done, take);
      ExtendsOn(old(log), take, log);
      v := VisitMade(look, done, take, log, x);
    }

    /** The snapshot, if one is due. */
    method SnapshotIfDue(x: Turn) returns (ok: bool)
      requires Valid() && model.phase == Top
      modifies this
      ensures Valid() && Went() && model.phase == Top
      ensures ok ==> !needSnapshot && SnapshotMade(old(log), log, x)
      ensures !ok ==> SnapshotFailed(old(log), log, x)
      ensures !old(needSnapshot) || SmoothTurn(x) ==> ok && buf == old(buf) && spill == old(spill)
    {
      if !needSnapshot {
        return true;
      }
      ok := SendSnapshot(x.listing, x.sends);
      if ok {
        ghost var l := log;
        needSnapshot := false;
        DidMove(SnapshotDone);
        ExtendsOn(old(log), l, log);
      }
    }

    /** Take a batch and send it; a batch that fails goes back to the front. */
    method SendDeltas(t: Tick, requeue: seq<Action>) returns (ghost sent: seq<Event>)
      requires Valid() && model.phase == Top && !needSnapshot
      modifies this
      ensures Valid() && Went() && model.phase == Top
      ensures Delivered(old(log), log, t)
      ensures Smooth(t) ==>
                && !needSnapshot
                && sent + buf + spill == old(buf + spill)
                && (old(buf + spill) != [] ==> Legal(sent, BATCH_SIZE, c.maxBytes))
    {
      var batch := TakeBatch();
      sent := batch;
      ghost var took := log;
      if batch == [] {
        DeliveredBy(old(log), took, log, t);
        return;
      }
      var ok := SendBatch(batch, t);
      if !ok {
        ghost var l := log;
        GiveBack(batch, requeue);
        ExtendsOn(took, l, log);
      }
      ExtendsOn(old(log), took, log);
      DeliveredBy(old(log), took, log, t);
    }

    /** The send of a batch failed: it goes back to the front, and a snapshot is due. */
    method GiveBack(batch: seq<Event>, requeue: seq<Action>)
      requires Valid() && model.phase.Sending? && model.phase.batch == batch != []
      modifies this
      ensures Valid() && Went() && model.phase == Top
      ensures |log.trace| > 0 && log.trace[|log.trace| - 1] == Return(false)
    {
      Interfere(requeue);
      ghost var l := log;
      RequeueFront(batch);
      needSnapshot := true;
      DidReturn(false);
      ExtendsOn(old(log), l, log);
    }

    /** The upload loop, until the context is done after some number of rounds. */
    method Run(rounds: nat, turns: nat -> Turn) returns (ghost visits: seq<Visit>)
      requires Valid() && model.phase == Top
      modifies this
      ensures Valid() && Went() && model.phase == Top
      ensures model == UploadProtocol.Run(c, initial, log.trace)
      ensures |visits| == rounds && AllVisited(log, turns, visits, |old(log.trace)|)
      ensures (forall k :: SmoothTurn(turns(k))) && rounds >= |old(buf + spill)| ==> buf == [] && spill == []
    {
      visits := [];
      for round := 0 to rounds
        invariant Valid() && Went() && model.phase == Top
        invariant |visits| == round && AllVisited(log, turns, visits, |old(log.trace)|)
        invariant (forall k :: SmoothTurn(turns(k))) ==>
                    buf + spill == [] || |buf + spill| + round <= |old(buf + spill)|
      {
        ghost var l := log;
        ghost var _, v := Round(turns(round));
        ExtendsOn(old(log), l, log);
        OneVisitMore(l, log, turns, visits, |old(log.trace)|, v);
        visits := visits + [v];
      }
      IsRun();
    }
  }

  /** One round: when it looks whether a snapshot is due, when that is done, when it takes a batch, and its end. */
  datatype Visit = Visit(look: nat, done: Option<nat>, take: Option<nat>, end: nat)

  /** Every cached object is right at the control plane, or has an event queued. */
  ghost predicate Repaired(s: State) {
    forall r | r in s.cache :: Row(s.server, r) == Row(s.cache, r) || Mentions(Queued(s), r)
  }

  /** The snapshot that was due when the round looked: sent unless a send fails. */
  ghost predicate SnapshotVisited(l: Log, x: Turn, look: nat, done: Option<nat>, end: nat) {
    && look < end <= |l.trace| < |l.states|
    && match done
       case None => l.trace[end - 1] == Return(false) && exists n: nat :: !x.sends(n).ok
       case Some(d) =>
         && look < d <= end && l.trace[d - 1] == SnapshotDone
         && (Complete(x.listing, l.states[look].cache.Keys) && (forall n :: Lands(x.sends(n))) ==>
               Repaired(l.states[d]))
  }

  /** The batch of deltas: it is taken, and if there is one, the round ends with its send returning. */
  ghost predicate BatchVisited(l: Log, t: Tick, take: nat, end: nat) {
    && take < end <= |l.trace| < |l.states| && l.trace[take] == Take
    && (l.states[take + 1].phase.Sending? ==> l.trace[end - 1] == Return(t.ok))
  }

  /**
   What a round did, as steps of the log. A due snapshot is sent unless a send fails, and a
   complete one whose batches all land repairs the inventory. Unless it failed, a batch is taken,
   and if there was one the round ends with its send returning.
   */
  ghost predicate Visited(l: Log, x: Turn, v: Visit) {
    && v.look <= v.end <= |l.trace| < |l.states|
    && (if l.states[v.look].needSnapshot then SnapshotVisited(l, x, v.look, v.done, v.end) else v.done.None?)
    && (v.take.None? <==> l.states[v.look].needSnapshot && v.done.None?)
    && (v.take.Some? ==>
          && v.look <= v.take.value && (v.done.Some? ==> v.done.value <= v.take.value)
          && BatchVisited(l, x.delta, v.take.value, v.end))
  }

  /** A batch of deltas was taken and sent between these two. */
  ghost predicate Delivered(l: Log, m: Log, t: Tick) {
    && |l.trace| < |m.trace| < |m.states|
    && BatchVisited(m, t, |l.trace|, |m.trace|)
  }

  lemma DeliveredBy(l: Log, took: Log, m: Log, t: Tick)
    requires Extends(took, m) && |took.trace| == |l.trace| + 1 && took.trace[|l.trace|] == Take
    requires |took.states| == |took.trace| + 1 && |m.states| == |m.trace| + 1
    requires took.states[|took.trace|].phase.Sending? ==> m.trace[|m.trace| - 1] == Return(t.ok)
    ensures Delivered(l, m, t)
  {
    assert Opened(took);
  }

  /** From `look` to `done`: no snapshot was due, or one was sent. */
  ghost predicate SnapshotMade(look: Log, done: Log, x: Turn) {
    && |look.states| == |look.trace| + 1 && |done.states| == |done.trace| + 1
    && if look.states[|look.trace|].needSnapshot then
         && |look.trace| < |done.trace| && done.trace[|done.trace| - 1] == SnapshotDone
         && (Complete(x.listing, look.states[|look.trace|].cache.Keys) && (forall n :: Lands(x.sends(n))) ==>
               Repaired(done.states[|done.trace|]))
       else done == look
  }

  /** From `look` to `l`: a snapshot was due, and a send of it failed. */
  ghost predicate SnapshotFailed(look: Log, l: Log, x: Turn) {
    && |look.states| == |look.trace| + 1 && |l.states| == |l.trace| + 1 && |look.trace| < |l.trace|
    && look.states[|look.trace|].needSnapshot
    && l.trace[|l.trace| - 1] == Return(false) && exists n: nat :: !x.sends(n).ok
  }

  lemma VisitFailed(look: Log, l: Log, x: Turn)
    requires Extends(look, l) && SnapshotFailed(look, l, x)
    ensures Visited(l, x, Visit(|look.trace|, None, None, |l.trace|))
  {
    assert Opened(look);
  }

  lemma VisitMade(look: Log, done: Log, take: Log, l: Log, x: Turn) returns (v: Visit)
    requires Extends(look, done) && Extends(done, take) && Extends(take, l)
    requires SnapshotMade(look, done, x) && Delivered(take, l, x.delta)
    ensures v.look == |look.trace| && v.end == |l.trace| && Visited(l, x, v)
  {
    ExtendsOn(done, take, l);
    ExtendsOn(look, done, l);
    assert Opened(look) && Opened(done);
    v := Visit(|look.trace|, if look.states[|look.trace|].needSnapshot then Some(|done.trace|) else None,
               Some(|take.trace|), |l.trace|);
  }

  /** The rounds from here on, one after the other. */
  ghost predicate AllVisited(l: Log, turns: nat -> Turn, visits: seq<Visit>, from: nat) {
    && (forall k: nat | k < |visits| :: Visited(l, turns(k), visits[k]))
    && (forall k | 0 <= k < |visits| :: from <= visits[k].look)
    && (forall i, k | 0 <= i < k < |visits| :: visits[i].end <= visits[k].look)
  }

  lemma OneVisitMore(l: Log, m: Log, turns: nat -> Turn, visits: seq<Visit>, from: nat, v: Visit)
    requires AllVisited(l, turns, visits, from) && Extends(l, m) && |m.states| == |m.trace| + 1
    requires Visited(m, turns(|visits|), v) && from <= |l.trace| <= v.look
    ensures AllVisited(m, turns, visits + [v], from)
  {
    forall k: nat | k < |visits| ensures Visited(m, turns(k), visits[k]) {
      VisitStays(l, m, turns(k), visits[k]);
    }
  }

  lemma VisitStays(l: Log, m: Log, x: Turn, v: Visit)
    requires Visited(l, x, v) && Extends(l, m) && |m.states| == |m.trace| + 1
    ensures Visited(m, x, v)
  {
    assert Opened(l);
  }

  ghost predicate AllCovered(s: State) {
    forall r | r in s.cache :: Covers(s, r)
  }

  lemma CoverKept(s: State, s': State)
    ensures KeepsCover(s, s') && AllCovered(s) ==> AllCovered(s')
  {
  }

  /** A batch is cut off the front of the queue. */
  lemma TakenInOrder(c: Config, buf: seq<Event>, spill: seq<Event>, out: seq<Event>, rest: seq<Event>, left: seq<Event>)
    requires var all := Replayed(buf, spill);
             && out == (if all == [] then [] else all[..FullLen(all, BATCH_SIZE, c.maxBytes)])
             && rest == all[|out|..] && left == (if buf == [] then [] else spill)
    ensures out + rest + left == buf + spill
    ensures buf + spill != [] ==> Legal(out, BATCH_SIZE, c.maxBytes)
  {
    assert out + rest == Replayed(buf, spill);
  }

  /** The same place in the loop, with or without the batch applied. */
  predicate SamePhase(p: Phase, q: Phase) {
    match p
    case Snapshotting(rest, _) => q.Snapshotting? && q.rest == rest
    case Sending(batch, _) => q.Sending? && q.batch == batch
    case _ => q == p
  }

  /** The refs listed so far, and those that were not cached at the start, are covered. */
  ghost predicate CoveredSoFar(s: State, refs: set<Ref>, listing: seq<Listed>) {
    forall r | r in s.cache && (r in refs ==> exists k | 0 <= k < |listing| :: listing[k].ref == r) :: Covers(s, r)
  }

  /** What was covered stays so, and this ref is covered too. */
  ghost predicate CoversAlso(s: State, s': State, ref: Ref) {
    forall r | r in s'.cache && (r == ref || r !in s.cache || Covers(s, r)) :: Covers(s', r)
  }

  lemma OneMoreListed(before: State, after: State, refs: set<Ref>, listing: seq<Listed>, k: nat)
    requires k < |listing| && CoveredSoFar(before, refs, listing[..k]) && CoversAlso(before, after, listing[k].ref)
    ensures CoveredSoFar(after, refs, listing[..k + 1])
  {
    var now := listing[..k + 1];
    forall r | r in after.cache && (r in refs ==> exists i | 0 <= i < |now| :: now[i].ref == r)
      ensures Covers(after, r)
    {
      if r in before.cache && r != listing[k].ref && r in refs {
        var i :| 0 <= i < |now| && now[i].ref == r;
        assert listing[..k][i].ref == r;
      }
    }
  }
}
