/**
 What is sent after a send that failed, over every run of the upload protocol: when the failed
 batch goes out again under its number, and when something else does.
 */
module Resending {
  import opened Options
  import opened Inventory
  import opened Batching
  import opened UploadProtocol
  import opened UploadLedger

  predicate AllSync(events: seq<Event>) {
    forall e | e in events :: e.op == Op.Sync
  }

  predicate NoSync(events: seq<Event>) {
    forall e | e in events :: e.op != Op.Sync
  }

  /** The batch that is cut from a queue. */
  function Cut(c: Config, queue: seq<Event>): seq<Event> {
    if queue == [] then [] else queue[..FullLen(queue, BATCH_SIZE, c.maxBytes)]
  }

  /** Deltas and snapshots never mix. */
  ghost predicate Pure(s: State) {
    && NoSync(s.buf) && NoSync(s.spill) && NoSync(s.notices)
    && match s.phase
       case Top => true
       case Reading(read) => AllSync(read)
       case Snapshotting(rest, _) => AllSync(rest)
       case Sending(batch, _) => NoSync(batch)
  }

  ghost predicate PureAttempt(a: Attempt) {
    a.events != [] && if a.full then AllSync(a.events) else NoSync(a.events)
  }

  /** What is known between a failed send and the next one. */
  ghost predicate Recovering(s: State, failed: Attempt) {
    && (match s.phase
        case Top => s.past.listed == if s.needSnapshot then None else Some([])
        case Reading(_) => s.past.listed == None
        case Snapshotting(rest, _) => s.past.listed == Some(rest)
        case Sending(_, _) => s.past.listed == Some([]))
    && (!failed.full ==> failed.events <= if s.phase.Sending? then s.past.cut else s.buf)
  }

  /** The send after a failed one. */
  ghost predicate Follows(c: Config, failed: Attempt, next: Attempt) {
    && next.listed.Some?
    && (next.full <==> next.listed.value != [])
    && next.queue != [] && next.events == Cut(c, next.queue)
    && (next.full ==> next.queue == next.listed.value)
    && (!next.full && !failed.full ==> failed.events <= next.queue)
  }

  ghost predicate AllFollow(c: Config, attempts: seq<Attempt>) {
    forall i, j | 0 <= i < j < |attempts| && j == i + 1 && !attempts[i].ok :: Follows(c, attempts[i], attempts[j])
  }

  ghost predicate Tracked(c: Config, s: State) {
    var n := |s.past.attempts|;
    && Pure(s) && (forall a | a in s.past.attempts :: PureAttempt(a)) && AllFollow(c, s.past.attempts)
    && (s.phase.Reading? || s.phase.Snapshotting? ==> s.needSnapshot)
    && (s.phase.Sending? ==> s.past.cut != [] && s.phase.batch == Cut(c, s.past.cut))
    && (n > 0 && !s.past.attempts[n - 1].ok ==> Recovering(s, s.past.attempts[n - 1]))
  }

  lemma StepPure(c: Config, s: State, a: Action)
    requires Pure(s)
    ensures Pure(Step(c, s, a))
  {
  }

  lemma WirePure(c: Config, s: State, ok: bool)
    requires Pure(s) && OnWire(c, s) != []
    ensures PureAttempt(Made(c, s, ok))
  {
  }

  /** A send that returns. */
  lemma ReturnTracked(c: Config, s: State, ok: bool)
    requires Tracked(c, s) && Enabled(c, s, Return(ok))
    ensures Tracked(c, Step(c, s, Return(ok)))
  {
    var s', made := Step(c, s, Return(ok)), Made(c, s, ok);
    StepPure(c, s, Return(ok));
    WirePure(c, s, ok);
    ReturnFollows(c, s, ok);
    assert s'.past.attempts == s.past.attempts + [made];
  }

  lemma ReturnFollows(c: Config, s: State, ok: bool)
    requires Tracked(c, s) && Enabled(c, s, Return(ok))
    ensures AllFollow(c, s.past.attempts + [Made(c, s, ok)])
  {
    var n, made := |s.past.attempts|, Made(c, s, ok);
    if n > 0 && !s.past.attempts[n - 1].ok {
      assert Recovering(s, s.past.attempts[n - 1]);
      assert Follows(c, s.past.attempts[n - 1], made);
    }
  }

  /** A step that only moves the loop or its queues keeps what is known about the failed send. */
  lemma OtherTracked(c: Config, s: State, a: Action)
    requires Tracked(c, s) && Enabled(c, s, a) && !a.Return?
    ensures Tracked(c, Step(c, s, a))
  {
    var s', n := Step(c, s, a), |s.past.attempts|;
    StepPure(c, s, a);
    assert s'.past.attempts == s.past.attempts;
    if n > 0 && !s.past.attempts[n - 1].ok {
      var failed := s.past.attempts[n - 1];
      assert failed in s.past.attempts && PureAttempt(failed);
      StepRecovers(c, s, a, failed);
    }
  }

  lemma StepRecovers(c: Config, s: State, a: Action, failed: Attempt)
    requires Recovering(s, failed) && failed.events != [] && Enabled(c, s, a) && !a.Return?
    ensures Recovering(Step(c, s, a), failed)
  {
  }

  lemma {:induction false} RunTracks(c: Config, server: Table, first: int, actions: seq<Action>)
    ensures Tracked(c, Run(c, Init(server, first), actions))
  {
    if actions != [] {
      var n := |actions| - 1;
      RunTracks(c, server, first, actions[..n]);
      var s := Run(c, Init(server, first), actions[..n]);
      if Enabled(c, s, actions[n]) {
        match actions[n]
        case Return(ok) => ReturnTracked(c, s, ok);
        case _ => OtherTracked(c, s, actions[n]);
      }
    }
  }

  /** A legal batch at the front of a queue is part of the batch that is cut from it. */
  lemma CutContains(c: Config, batch: seq<Event>, queue: seq<Event>)
    requires Legal(batch, BATCH_SIZE, c.maxBytes) && batch <= queue
    ensures queue != [] && batch <= Cut(c, queue)
    ensures Cut(c, queue) == batch <==> FullLen(queue, BATCH_SIZE, c.maxBytes) == |batch|
  {
    assert queue[..|batch|] == batch;
    assert FullLen(queue, BATCH_SIZE, c.maxBytes) >= |batch|;
  }

  /**
   Over every run, the send after a failed delta batch carries the same number, and it is a delta
   batch exactly when the snapshot in between listed nothing. It then starts with the failed
   events, and is the failed batch exactly when no event queued behind it fits; otherwise it is a
   snapshot batch and has other contents.
   */
  lemma FailedDeltaIsResent(c: Config, server: Table, first: int, actions: seq<Action>, i: nat)
    requires var all := Run(c, Init(server, first), actions).past.attempts;
             i + 1 < |all| && !all[i].ok && !all[i].full
    ensures var all := Run(c, Init(server, first), actions).past.attempts;
            var failed, next := all[i], all[i + 1];
            && next.number == failed.number
            && next.listed.Some? && (!next.full <==> next.listed.value == [])
            && (next.full ==> next.events != failed.events)
            && (!next.full ==>
                  && failed.events <= next.events <= next.queue && next.queue != []
                  && (next.events == failed.events <==>
                        FullLen(next.queue, BATCH_SIZE, c.maxBytes) == |failed.events|))
  {
    var s := Run(c, Init(server, first), actions);
    var failed, next := s.past.attempts[i], s.past.attempts[i + 1];
    RunTracks(c, server, first, actions);
    RunNumbers(c, server, first, actions);
    assert failed in s.past.attempts && next in s.past.attempts;
    assert Follows(c, failed, next);
    assert NumberAfter(s.past.attempts, s.seqNo, i) == failed.number;
    if next.full {
      assert failed.events[0] in failed.events && next.events[0] in next.events;
    } else {
      CutContains(c, failed.events, next.queue);
    }
  }

  /** And the send after a failed snapshot batch is the first batch of a new listing, if that lists anything. */
  lemma FailedSnapshotStartsOver(c: Config, server: Table, first: int, actions: seq<Action>, i: nat)
    requires var all := Run(c, Init(server, first), actions).past.attempts;
             i + 1 < |all| && !all[i].ok && all[i].full
    ensures var all := Run(c, Init(server, first), actions).past.attempts;
            var failed, next := all[i], all[i + 1];
            && next.number == failed.number && next.listed.Some?
            && (next.full <==> next.listed.value != [])
            && (next.full ==> next.events == Cut(c, next.listed.value))
            && (!next.full ==> next.events != failed.events)
  {
    var s := Run(c, Init(server, first), actions);
    var failed, next := s.past.attempts[i], s.past.attempts[i + 1];
    RunTracks(c, server, first, actions);
    RunNumbers(c, server, first, actions);
    assert failed in s.past.attempts && next in s.past.attempts;
    assert Follows(c, failed, next);
    assert NumberAfter(s.past.attempts, s.seqNo, i) == failed.number;
    if !next.full {
      assert failed.events[0] in failed.events && next.events[0] in next.events;
    }
  }

  // ------------------------------------------------------------- the first send

  /** Before the first send: no delta is taken unless a snapshot has been read and listed nothing. */
  ghost predicate NothingSentYet(s: State) {
    && s.past.attempts == []
    && (s.needSnapshot || s.past.listed == Some([]))
    && (s.phase.Snapshotting? ==> s.past.listed == Some(s.phase.rest))
    && (s.phase.Sending? ==> s.past.listed == Some([]))
    && (s.phase.Reading? || s.phase.Snapshotting? ==> s.needSnapshot)
  }

  /** The first send of a run: the front of what a snapshot listed, or a delta after an empty listing. */
  ghost predicate FirstSend(a: Attempt) {
    a.listed.Some? && (a.full <==> a.listed.value != []) && (a.full ==> a.events <= a.listed.value)
  }

  ghost predicate Started(s: State) {
    if s.past.attempts == [] then NothingSentYet(s) else FirstSend(s.past.attempts[0])
  }

  lemma StepStarted(c: Config, s: State, a: Action)
    requires Started(s)
    ensures Started(Step(c, s, a))
  {
    StepAttempts(c, s, a);
  }

  /** Over every run, the agent sends a full snapshot before any delta, unless its caches list nothing. */
  lemma {:induction false} SnapshotComesFirst(c: Config, server: Table, first: int, actions: seq<Action>)
    ensures var attempts := Run(c, Init(server, first), actions).past.attempts;
            attempts != [] ==>
              && attempts[0].number == first + 1 && attempts[0].listed.Some?
              && (attempts[0].full <==> attempts[0].listed.value != [])
              && (attempts[0].full ==> attempts[0].events <= attempts[0].listed.value)
  {
    StartsWithSnapshot(c, server, first, actions);
    RunNumbers(c, server, first, actions);
    FirstNumber(Run(c, Init(server, first), actions).past.attempts,
                Run(c, Init(server, first), actions).seqNo, first);
  }

  lemma {:induction false} StartsWithSnapshot(c: Config, server: Table, first: int, actions: seq<Action>)
    ensures Started(Run(c, Init(server, first), actions))
  {
    if actions != [] {
      var n := |actions| - 1;
      StartsWithSnapshot(c, server, first, actions[..n]);
      StepStarted(c, Run(c, Init(server, first), actions[..n]), actions[n]);
    }
  }

  /** Numbers are counted from the first one. */
  lemma {:induction false} FirstNumber(attempts: seq<Attempt>, seqNo: int, first: int)
    requires Numbered(attempts, seqNo, first)
    ensures attempts != [] ==> attempts[0].number == first + 1
  {
    if attempts != [] {
      NumberedFrom(attempts, seqNo, first, 0);
    }
  }

  /** The number after the first `n` attempts is that of the accepted ones among them. */
  lemma {:induction false} NumberedFrom(attempts: seq<Attempt>, seqNo: int, first: int, n: nat)
    requires Numbered(attempts, seqNo, first) && n <= |attempts|
    ensures n < |attempts| ==> attempts[n].number == first + 1 + |Accepted(attempts[..n])|
    decreases |attempts| - n
  {
    if n < |attempts| {
      NumberedFrom(attempts, seqNo, first, n + 1);
      assert attempts[..n + 1][..n] == attempts[..n];
      assert NumberAfter(attempts, seqNo, n) == attempts[n].number + if attempts[n].ok then 1 else 0;
      if n + 1 == |attempts| {
        assert attempts[..n + 1] == attempts;
      }
    }
  }
}
