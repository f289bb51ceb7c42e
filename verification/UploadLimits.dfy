/**
 Runs that show why agreement needs its two conditions, and what a sequence number does not
 promise.
 */
module UploadLimits {
  import opened Options
  import opened Inventory
  import opened Batching
  import opened UploadProtocol

  lemma Go(c: Config, s0: State, actions: seq<Action>, s: State, a: Action) returns (actions': seq<Action>, s': State)
    requires s == Run(c, s0, actions)
    ensures actions' == actions + [a] && s' == Step(c, s, a) == Run(c, s0, actions')
  {
    actions', s' := actions + [a], Step(c, s, a);
    assert actions'[..|actions|] == actions;
  }

  /** The first snapshot of a process whose caches are not listed yet: nothing to send. */
  lemma EmptySnapshot(c: Config, s0: State, actions: seq<Action>, s: State) returns (actions': seq<Action>, s': State)
    requires s == Run(c, s0, actions) && s.phase == Top && s.needSnapshot
    ensures s' == Run(c, s0, actions') && s' == s.(needSnapshot := false, past := s.past.(listed := Some([])))
  {
    actions', s' := Go(c, s0, actions, s, BeginSnapshot);
    actions', s' := Go(c, s0, actions', s', EndRead);
    actions', s' := Go(c, s0, actions', s', SnapshotDone);
  }

  lemma Observe(c: Config, s0: State, actions: seq<Action>, s: State, e: Event)
      returns (actions': seq<Action>, s': State)
    requires s == Run(c, s0, actions) && s.notices == [] && e.op != Op.Sync
    ensures s' == Run(c, s0, actions')
    ensures s'.cache == Write(s.cache, e.ref, Effect(e)) && s'.notices == []
    ensures s'.buf == EnqueueBuf(c, s.buf, e) && s'.spill == EnqueueSpill(c, s.buf, s.spill, e)
    ensures s'.phase == s.phase && s'.needSnapshot == s.needSnapshot && s'.seqNo == s.seqNo && s'.server == s.server
    ensures s'.past.attempts == s.past.attempts
  {
    actions', s' := Go(c, s0, actions, s, Change(e));
    assert s'.notices == [e] && s'.notices[..0] == [];
    actions', s' := Go(c, s0, actions', s', Deliver(0));
  }

  /** Take a single event and have it applied and acknowledged. */
  lemma Deliver1(c: Config, s0: State, actions: seq<Action>, s: State, e: Event)
      returns (actions': seq<Action>, s': State)
    requires s == Run(c, s0, actions) && s.phase == Top && !s.needSnapshot
    requires Replayed(s.buf, s.spill) == [e]
    ensures s' == Run(c, s0, actions') && s'.phase == Top && !s'.needSnapshot
    ensures s'.buf == [] && s'.spill == (if s.buf == [] then [] else s.spill)
    ensures s'.cache == s.cache && s'.notices == s.notices
    ensures s'.server == Write(s.server, e.ref, Effect(e))
  {
    actions', s' := Go(c, s0, actions, s, Take);
    assert s'.phase == Sending([e], false);
    actions', s' := Go(c, s0, actions', s', Arrive);
    assert ApplyBatch(s.server, [e]) == Write(ApplyBatch(s.server, [e][..0]), e.ref, Effect(e));
    actions', s' := Go(c, s0, actions', s', Return(true));
  }

  /**
   Without the condition on spilled events the promise fails: with room for one event in
   memory, a new version of an object overtakes the old one waiting in the spill file, and the
   drained control plane is left with the old version.
   */
  lemma SpilledEventOvertaken(server: Table, seqNo: int, q: Ref, r: Ref, x: Bytes, old': Bytes, new': Bytes)
    returns (c: Config, actions: seq<Action>)
    requires q != r && old' != new'
    ensures var s := Run(c, Init(server, seqNo), actions);
            Pending(s) == [] && Row(s.cache, r) == Some(new') && Row(s.server, r) == Some(old')
  {
    c := Config(1, DEFAULT_MAX_BATCH_BYTES);
    var s0 := Init(server, seqNo);
    var e0, e1, e2 := Event(Op.Add, q, x, 0), Event(Op.Add, r, old', 0), Event(Op.Update, r, new', 0);
    var s := s0;
    actions := [];
    actions, s := EmptySnapshot(c, s0, actions, s);
    actions, s := Observe(c, s0, actions, s, e0);
    actions, s := Observe(c, s0, actions, s, e1);
    assert s.buf == [e0] && s.spill == [e1];
    actions, s := Deliver1(c, s0, actions, s, e0);
    assert s.spill == [e1];
    actions, s := Observe(c, s0, actions, s, e2);
    actions, s := Deliver1(c, s0, actions, s, e2);
    assert s.buf == [] && s.spill == [e1];
    actions, s := Deliver1(c, s0, actions, s, e1);
    assert Row(s.server, r) == Some(old');
  }

  /** An error reported inside a successful response counts as success, and the event is gone. */
  lemma AcknowledgedButNotApplied(server: Table, seqNo: int, r: Ref, x: Bytes)
    returns (c: Config, actions: seq<Action>)
    requires Row(server, r) != Some(x)
    ensures var s := Run(c, Init(server, seqNo), actions);
            Pending(s) == [] && Row(s.cache, r) == Some(x) && s.server == server
  {
    var s0 := Init(server, seqNo);
    var s;
    c, actions, s := OnePending(s0, Event(Op.Add, r, x, 0));
    actions, s := Go(c, s0, actions, s, Return(true));
  }

  /** A fresh process that has put its first delta on the wire. */
  lemma OnePending(s0: State, e: Event) returns (c: Config, actions: seq<Action>, s: State)
    requires s0 == Init(s0.server, s0.seqNo) && e.op != Op.Sync
    ensures s == Run(c, s0, actions) && s.phase == Sending([e], false) && OnWire(c, s) == [e]
    ensures s.buf == [] && s.spill == [] && s.notices == [] && s.past.attempts == []
    ensures s.cache == Write(map[], e.ref, Effect(e)) && s.server == s0.server && s.seqNo == s0.seqNo
  {
    c := Config(1, DEFAULT_MAX_BATCH_BYTES);
    actions, s := [], s0;
    actions, s := EmptySnapshot(c, s0, actions, s);
    actions, s := Observe(c, s0, actions, s, e);
    assert s.buf == [e];
    actions, s := Go(c, s0, actions, s, Take);
  }

  /** A snapshot that lists a single object. */
  lemma ListOne(c: Config, s0: State, actions: seq<Action>, s: State, r: Ref)
      returns (actions': seq<Action>, s': State)
    requires s == Run(c, s0, actions) && s.phase == Top && s.needSnapshot && r in s.cache
    ensures var e := Event(Op.Sync, r, s.cache[r], 0);
            && s' == Run(c, s0, actions')
            && s' == s.(phase := Snapshotting([e], false), past := s.past.(listed := Some([e])))
  {
    actions', s' := Go(c, s0, actions, s, BeginSnapshot);
    actions', s' := Go(c, s0, actions', s', ReadObject(r, 0));
    assert s'.phase.read == [Event(Op.Sync, r, s.cache[r], 0)];
    actions', s' := Go(c, s0, actions', s', EndRead);
  }

  /** And is acknowledged. */
  lemma SnapshotOne(c: Config, s0: State, actions: seq<Action>, s: State, r: Ref)
      returns (actions': seq<Action>, s': State)
    requires s == Run(c, s0, actions) && s.phase == Top && s.needSnapshot && r in s.cache
    ensures s' == Run(c, s0, actions') && s'.server == s.server
    ensures var e := Event(Op.Sync, r, s.cache[r], 0);
            s'.past.attempts == s.past.attempts + [Attempt(s.seqNo + 1, [e], true, true, Some([e]), [e])]
  {
    var e := Event(Op.Sync, r, s.cache[r], 0);
    actions', s' := ListOne(c, s0, actions, s, r);
    assert FullLen([e], BATCH_SIZE, c.maxBytes) == 1 && [e][..1] == [e];
    assert OnWire(c, s') == [e];
    actions', s' := Go(c, s0, actions', s', Return(true));
  }

  lemma AppliedThenLost(c: Config, s0: State, actions: seq<Action>, s: State, e: Event)
      returns (actions': seq<Action>, s': State)
    requires s == Run(c, s0, actions) && s.phase == Sending([e], false) && OnWire(c, s) == [e]
    ensures s' == Run(c, s0, actions') && s'.phase == Top && s'.needSnapshot
    ensures s'.server == Write(s.server, e.ref, Effect(e)) && s'.cache == s.cache && s'.seqNo == s.seqNo
    ensures s'.past.attempts == s.past.attempts + [Attempt(s.seqNo + 1, [e], false, false, s.past.listed, s.past.cut)]
  {
    actions', s' := Go(c, s0, actions, s, Arrive);
    assert ApplyBatch(s.server, [e]) == Write(ApplyBatch(s.server, [e][..0]), e.ref, Effect(e));
    actions', s' := Go(c, s0, actions', s', Return(false));
  }

  /**
   A failed batch is not always resent under its number: after a delta was applied but its
   acknowledgement lost, the same number goes to the first batch of the snapshot.
   */
  lemma NumberReusedForOtherBatch(server: Table, seqNo: int, r: Ref, x: Bytes)
    returns (c: Config, actions: seq<Action>)
    ensures var s := Run(c, Init(server, seqNo), actions);
            var a := s.past.attempts;
            && |a| == 2 && a[0].number == a[1].number
            && a[0].events != a[1].events && !a[0].full && a[1].full && !a[0].ok && a[1].ok
            && Row(s.server, r) == Some(x)
  {
    var s0 := Init(server, seqNo);
    var e := Event(Op.Add, r, x, 0);
    var s;
    c, actions, s := OnePending(s0, e);
    actions, s := AppliedThenLost(c, s0, actions, s, e);
    actions, s := SnapshotOne(c, s0, actions, s, r);
    assert [e][0] != [Event(Op.Sync, r, x, 0)][0];
  }
}
