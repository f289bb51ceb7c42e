/**
 What a full snapshot repairs. In any run, harmless or not, once a snapshot that lists every
 cached object has arrived, every cached object without a queued event is right at the control
 plane: whatever was overtaken, acknowledged without being applied or applied late before that.
 */
module Snapshots {
  import opened Options
  import opened Inventory
  import opened UploadProtocol
  import opened Convergence

  /** The snapshot under way takes care of this ref, or a queued event does. */
  ghost predicate Covers(s: State, r: Ref) {
    || Mentions(Queued(s), r)
    || match s.phase
       case Reading(read) => Mentions(read, r)
       case Snapshotting(rest, _) => Mentions(rest, r) || Row(s.server, r) == Row(s.cache, r)
       case _ => Row(s.server, r) == Row(s.cache, r)
  }

  /** Every cached ref that was covered, or was not cached, is covered. */
  ghost predicate KeepsCover(s: State, s': State) {
    forall r | r in s'.cache && (r in s.cache ==> Covers(s, r)) :: Covers(s', r)
  }

  lemma CoverChain(s: State, s': State, s'': State)
    requires KeepsCover(s, s') && KeepsCover(s', s'')
    ensures KeepsCover(s, s'')
  {
  }

  /** The batch of a snapshot that was applied, and nothing after it. */
  ghost predicate WireApplied(c: Config, s: State) {
    s.phase.Snapshotting? && s.phase.applied ==>
      forall r | Mentions(OnWire(c, s), r) :: Some(Row(s.server, r)) == LastEffect(OnWire(c, s), r)
  }

  lemma StepApplies(c: Config, s: State, a: Action)
    requires WireApplied(c, s)
    ensures WireApplied(c, Step(c, s, a))
  {
    if Enabled(c, s, a) && a.Arrive? {
      forall r | Mentions(OnWire(c, s), r)
        ensures Some(Row(Step(c, s, a).server, r)) == LastEffect(OnWire(c, s), r)
      {
        ApplyAt(s.server, OnWire(c, s), r);
        LastMentions(OnWire(c, s), r);
      }
    }
  }

  lemma {:induction false} RunApplies(c: Config, server: Table, seqNo: int, actions: seq<Action>)
    ensures WireApplied(c, Run(c, Init(server, seqNo), actions))
  {
    if actions != [] {
      var n := |actions| - 1;
      RunApplies(c, server, seqNo, actions[..n]);
      StepApplies(c, Run(c, Init(server, seqNo), actions[..n]), actions[n]);
    }
  }

  /** Steps during which a snapshot keeps its promise: no send fails or returns unapplied, nothing arrives late. */
  predicate Orderly(s: State, a: Action) {
    match a
    case ArriveLate(_) => false
    case Return(ok) => s.phase.Snapshotting? && ok && s.phase.applied
    case Take => false
    case BeginSnapshot => false
    case _ => true
  }

  lemma ChangeCovers(c: Config, s: State, e: Event)
    requires Enabled(c, s, Change(e))
    ensures KeepsCover(s, Step(c, s, Change(e)))
  {
    var s' := Step(c, s, Change(e));
    forall r | r in s'.cache && (r in s.cache ==> Covers(s, r)) ensures Covers(s', r) {
      ChangeAt(c, s, e, r);
    }
  }

  lemma DeliverCovers(c: Config, s: State, i: nat)
    requires Enabled(c, s, Deliver(i))
    ensures KeepsCover(s, Step(c, s, Deliver(i)))
  {
    var s' := Step(c, s, Deliver(i));
    forall r | r in s'.cache && (r in s.cache ==> Covers(s, r)) ensures Covers(s', r) {
      DeliverAt(c, s, i, r);
    }
  }

  lemma ArriveCovers(c: Config, s: State)
    requires s.phase.Snapshotting? && Enabled(c, s, Arrive)
    ensures KeepsCover(s, Step(c, s, Arrive))
  {
    var s', w := Step(c, s, Arrive), OnWire(c, s);
    assert Queued(s') == Queued(s) && s.phase.rest == w + s.phase.rest[|w|..];
    forall r | r in s'.cache && (r in s.cache ==> Covers(s, r)) ensures Covers(s', r) {
      ApplyAt(s.server, w, r);
      LastMentions(w, r);
      MentionsConcat(w, s.phase.rest[|w|..], r);
    }
  }

  lemma ReturnCovers(initial: Table, c: Config, s: State)
    requires Inv(initial, s) && WireApplied(c, s) && s.phase.Snapshotting? && s.phase.applied
    requires Enabled(c, s, Return(true))
    ensures KeepsCover(s, Step(c, s, Return(true)))
  {
    var s', w := Step(c, s, Return(true)), OnWire(c, s);
    assert Queued(s') == Queued(s) && s.phase.rest == w + s'.phase.rest;
    forall r | r in s'.cache && (r in s.cache ==> Covers(s, r)) ensures Covers(s', r) {
      MentionsConcat(w, s'.phase.rest, r);
      if Mentions(w, r) {
        var e := LastIsThere(w, r);
        assert e in SnapshotEvents(s) && Fresh(s, e);
      }
    }
  }

  lemma ReadCovers(c: Config, s: State, a: Action)
    requires Enabled(c, s, a) && (a.ReadObject? || a.EndRead? || a.SnapshotDone?)
    ensures KeepsCover(s, Step(c, s, a))
    ensures a.ReadObject? ==> Covers(Step(c, s, a), a.ref)
  {
    var s' := Step(c, s, a);
    assert Queued(s') == Queued(s);
    if a.ReadObject? {
      var e := Event(Op.Sync, a.ref, s.cache[a.ref], a.timestamp);
      forall r ensures Mentions(s'.phase.read, r) <==> Mentions(s.phase.read, r) || r == a.ref {
        MentionsConcat(s.phase.read, [e], r);
        One(e, r);
      }
    }
  }

  lemma StepCovers(initial: Table, c: Config, s: State, a: Action)
    requires Inv(initial, s) && WireApplied(c, s) && Orderly(s, a) && (s.phase.Reading? || s.phase.Snapshotting?)
    ensures KeepsCover(s, Step(c, s, a))
  {
    if Enabled(c, s, a) {
      match a
      case Change(e) => ChangeCovers(c, s, e);
      case Deliver(i) => DeliverCovers(c, s, i);
      case Arrive => ArriveCovers(c, s);
      case Return(_) => ReturnCovers(initial, c, s);
      case _ => ReadCovers(c, s, a);
    }
  }

  /** A stretch of a run that belongs to one snapshot and is orderly throughout. */
  ghost predicate OneSnapshot(c: Config, s: State, actions: seq<Action>) {
    forall k | 0 <= k < |actions| ::
      var t := Run(c, s, actions[..k]);
      (t.phase.Reading? || t.phase.Snapshotting?) && Orderly(t, actions[k])
  }

  lemma {:induction false} StretchCovers(initial: Table, seqNo: int, c: Config, before: seq<Action>,
      actions: seq<Action>)
    requires OneSnapshot(c, Run(c, Init(initial, seqNo), before), actions)
    ensures var s := Run(c, Init(initial, seqNo), before); KeepsCover(s, Run(c, s, actions))
    decreases |actions|
  {
    var s := Run(c, Init(initial, seqNo), before);
    if actions != [] {
      var n := |actions| - 1;
      forall k | 0 <= k < n
        ensures var t := Run(c, s, actions[..n][..k]);
                (t.phase.Reading? || t.phase.Snapshotting?) && Orderly(t, actions[..n][k])
      {
        assert actions[..n][..k] == actions[..k];
      }
      StretchCovers(initial, seqNo, c, before, actions[..n]);
      var t := Run(c, s, actions[..n]);
      RunConcat(c, Init(initial, seqNo), before, actions[..n]);
      RunKeeps(initial, seqNo, c, before + actions[..n]);
      RunApplies(c, initial, seqNo, before + actions[..n]);
      StepCovers(initial, c, t, actions[n]);
      CoverChain(s, t, Run(c, s, actions));
    }
  }

  /**
   A snapshot repairs: after any run, if a snapshot's listing covers every cached ref (each is
   listed or has an event queued), and the snapshot then completes, its sends returning only once
   applied, then every cached ref has its row at the control plane or an event queued.
   */
  lemma SnapshotRepairs(initial: Table, seqNo: int, c: Config, before: seq<Action>, actions: seq<Action>)
    requires var s := Run(c, Init(initial, seqNo), before);
             && s.phase.Reading? && OneSnapshot(c, s, actions) && Run(c, s, actions).phase == Top
             && forall r | r in s.cache :: Mentions(s.phase.read, r) || Mentions(Queued(s), r)
    ensures var s' := Run(c, Run(c, Init(initial, seqNo), before), actions);
            forall r | r in s'.cache :: Row(s'.server, r) == Row(s'.cache, r) || Mentions(Queued(s'), r)
  {
    StretchCovers(initial, seqNo, c, before, actions);
  }
}
