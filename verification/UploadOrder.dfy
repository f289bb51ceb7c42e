/**
 The order of events over every run of the upload protocol, told by the position at which each
 was enqueued: it is kept exactly as long as no event enters memory while the spill file holds one.
 */
module UploadOrder {
  import opened Inventory
  import opened UploadProtocol
  import opened UploadLedger

  /** Everything enqueued so far, and its positions along the line and in the spill file. */
  datatype Tags = Tags(enqueued: seq<Event>, line: seq<nat>, shelf: seq<nat>)

  /** A step enqueues an event, replays the spill file, or leaves every event where it is. */
  function Tag(c: Config, s: State, t: Tags, a: Action): Tags {
    if !Enabled(c, s, a) then t else
    match a
    case Deliver(i) =>
      var t' := t.(enqueued := t.enqueued + [s.notices[i]]);
      if |s.buf| < c.capacity then t'.(line := t.line + [|t.enqueued|]) else t'.(shelf := t.shelf + [|t.enqueued|])
    case Take => if s.buf == [] then t.(line := t.line + t.shelf, shelf := []) else t
    case _ => t
  }

  function TagsAfter(c: Config, s: State, actions: seq<Action>): Tags {
    if actions == [] then Tags([], [], [])
    else
      var n := |actions| - 1;
      Tag(c, Run(c, s, actions[..n]), TagsAfter(c, s, actions[..n]), actions[n])
  }

  /** These positions hold these events. */
  predicate Names(ids: seq<nat>, events: seq<Event>, enqueued: seq<Event>) {
    |ids| == |events| && forall j | 0 <= j < |ids| :: ids[j] < |enqueued| && enqueued[ids[j]] == events[j]
  }

  /** The positions below `n`, once each. */
  function Below(n: nat): multiset<nat> {
    if n == 0 then multiset{} else Below(n - 1) + multiset{n - 1}
  }

  /** Every enqueued event is on the line or in the spill file, at one place. */
  ghost predicate Tagged(s: State, t: Tags) {
    && Names(t.line, Line(s), t.enqueued) && Names(t.shelf, s.spill, t.enqueued)
    && multiset(t.line) + multiset(t.shelf) == Below(|t.enqueued|)
    && |t.line| + |t.shelf| == |t.enqueued|
  }

  lemma NamesGrow(ids: seq<nat>, events: seq<Event>, enqueued: seq<Event>, e: Event)
    requires Names(ids, events, enqueued)
    ensures Names(ids, events, enqueued + [e])
    ensures Names(ids + [|enqueued|], events + [e], enqueued + [e])
  {
  }

  lemma NamesJoin(ids: seq<nat>, events: seq<Event>, ids': seq<nat>, events': seq<Event>, enqueued: seq<Event>)
    requires Names(ids, events, enqueued) && Names(ids', events', enqueued)
    ensures Names(ids + ids', events + events', enqueued)
  {
  }

  /** An event enters at the end of the line or at the end of the spill file. */
  lemma DeliverLine(c: Config, s: State, i: nat)
    requires Enabled(c, s, Deliver(i))
    ensures var s', e := Step(c, s, Deliver(i)), s.notices[i];
            if |s.buf| < c.capacity then Line(s') == Line(s) + [e] && s'.spill == s.spill
            else Line(s') == Line(s) && s'.spill == s.spill + [e]
  {
    var s' := Step(c, s, Deliver(i));
    assert s'.past.acked == s.past.acked && InFlight(s') == InFlight(s);
  }

  lemma DeliverTags(c: Config, s: State, t: Tags, i: nat)
    requires Tagged(s, t) && Enabled(c, s, Deliver(i))
    ensures Tagged(Step(c, s, Deliver(i)), Tag(c, s, t, Deliver(i)))
  {
    DeliverLine(c, s, i);
    NamesGrow(t.line, Line(s), t.enqueued, s.notices[i]);
    NamesGrow(t.shelf, s.spill, t.enqueued, s.notices[i]);
    OneMore(t.line, t.shelf, |t.enqueued|);
  }

  lemma OneMore(line: seq<nat>, shelf: seq<nat>, n: nat)
    requires multiset(line) + multiset(shelf) == Below(n)
    ensures multiset(line + [n]) + multiset(shelf) == Below(n + 1)
    ensures multiset(line) + multiset(shelf + [n]) == Below(n + 1)
  {
  }

  lemma TakeTags(c: Config, s: State, t: Tags)
    requires Tagged(s, t) && Enabled(c, s, Take)
    ensures Tagged(Step(c, s, Take), Tag(c, s, t, Take))
  {
    TakeLine(c, s);
    if s.buf == [] {
      NamesJoin(t.line, Line(s), t.shelf, s.spill, t.enqueued);
    }
  }

  lemma OtherTags(c: Config, s: State, a: Action)
    requires Enabled(c, s, a) && !a.Deliver? && !a.Take?
    ensures Line(Step(c, s, a)) == Line(s) && Step(c, s, a).spill == s.spill
  {
  }

  lemma StepTags(c: Config, s: State, t: Tags, a: Action)
    requires Tagged(s, t)
    ensures Tagged(Step(c, s, a), Tag(c, s, t, a))
  {
    if Enabled(c, s, a) {
      match a
      case Deliver(i) => DeliverTags(c, s, t, i);
      case Take => TakeTags(c, s, t);
      case _ => OtherTags(c, s, a);
    }
  }

  lemma {:induction false} RunTags(c: Config, server: Table, seqNo: int, actions: seq<Action>)
    ensures Tagged(Run(c, Init(server, seqNo), actions), TagsAfter(c, Init(server, seqNo), actions))
  {
    if actions != [] {
      var n, s := |actions| - 1, Init(server, seqNo);
      RunTags(c, server, seqNo, actions[..n]);
      StepTags(c, Run(c, s, actions[..n]), TagsAfter(c, s, actions[..n]), actions[n]);
    }
  }

  // ------------------------------------------------------------ exactly in order

  /** The line, followed by the spill file, is in the order in which the events were enqueued. */
  predicate InOrder(t: Tags) {
    forall j | 0 <= j < |t.line + t.shelf| :: (t.line + t.shelf)[j] == j
  }

  /** An event enters memory while the spill file holds an earlier one. */
  predicate Overtakes(c: Config, s: State, a: Action) {
    a.Deliver? && Enabled(c, s, a) && |s.buf| < c.capacity && s.spill != []
  }

  /** Some event on the line is not where it was enqueued; the line only grows, so this stays so. */
  predicate Broken(t: Tags) {
    exists j | 0 <= j < |t.line| :: t.line[j] != j
  }

  lemma StepOrder(c: Config, s: State, t: Tags, a: Action)
    requires Tagged(s, t)
    ensures Broken(t) ==> Broken(Tag(c, s, t, a))
    ensures InOrder(t) ==> if Overtakes(c, s, a) then Broken(Tag(c, s, t, a)) else InOrder(Tag(c, s, t, a))
  {
    var t' := Tag(c, s, t, a);
    assert t.line <= t'.line;
    if Broken(t) {
      var j :| 0 <= j < |t.line| && t.line[j] != j;
      assert t'.line[j] == t.line[j];
    }
    if InOrder(t) {
      if Overtakes(c, s, a) {
        assert t'.line[|t.line|] == |t.enqueued| != |t.line|;
      } else if a.Deliver? && Enabled(c, s, a) {
        assert t'.line + t'.shelf == t.line + t.shelf + [|t.enqueued|];
      } else {
        assert t'.line + t'.shelf == t.line + t.shelf;
      }
    }
  }

  lemma NotBoth(t: Tags)
    ensures InOrder(t) ==> !Broken(t)
  {
    if InOrder(t) {
      forall j | 0 <= j < |t.line| ensures t.line[j] == j {
        assert (t.line + t.shelf)[j] == t.line[j];
      }
    }
  }

  predicate OvertakesAt(c: Config, s: State, actions: seq<Action>, k: nat)
    requires k < |actions|
  {
    Overtakes(c, Run(c, s, actions[..k]), actions[k])
  }

  lemma SameStep(c: Config, s: State, actions: seq<Action>, n: nat, k: nat)
    requires k < n <= |actions|
    ensures OvertakesAt(c, s, actions[..n], k) == OvertakesAt(c, s, actions, k)
  {
    assert actions[..n][..k] == actions[..k];
  }

  /** No step of the run overtakes. */
  predicate Orderly(c: Config, s: State, actions: seq<Action>) {
    forall k | 0 <= k < |actions| :: !OvertakesAt(c, s, actions, k)
  }

  lemma OrderlySoFar(c: Config, s: State, actions: seq<Action>, n: nat)
    requires n + 1 == |actions|
    ensures Orderly(c, s, actions) <==> Orderly(c, s, actions[..n]) && !OvertakesAt(c, s, actions, n)
  {
    forall k | 0 <= k < n ensures OvertakesAt(c, s, actions[..n], k) == OvertakesAt(c, s, actions, k) {
      SameStep(c, s, actions, n, k);
    }
  }

  lemma {:induction false} OrderlyKeepsOrder(c: Config, server: Table, seqNo: int, actions: seq<Action>)
    ensures var s := Init(server, seqNo);
            if Orderly(c, s, actions) then InOrder(TagsAfter(c, s, actions)) else Broken(TagsAfter(c, s, actions))
  {
    if actions != [] {
      var n, s := |actions| - 1, Init(server, seqNo);
      OrderlySoFar(c, s, actions, n);
      OrderlyKeepsOrder(c, server, seqNo, actions[..n]);
      RunTags(c, server, seqNo, actions[..n]);
      StepOrder(c, Run(c, s, actions[..n]), TagsAfter(c, s, actions[..n]), actions[n]);
    }
  }

  /**
   Over every run: acknowledged, in flight, buffered and spilled events together are in the order
   in which they were enqueued exactly when no event entered memory while the spill file was not empty.
   */
  lemma OrderExactly(c: Config, server: Table, seqNo: int, actions: seq<Action>)
    ensures InOrder(TagsAfter(c, Init(server, seqNo), actions)) <==> Orderly(c, Init(server, seqNo), actions)
  {
    OrderlyKeepsOrder(c, server, seqNo, actions);
    NotBoth(TagsAfter(c, Init(server, seqNo), actions));
  }

  /** In order means: the events themselves are those enqueued, in that order. */
  lemma InOrderMeans(c: Config, server: Table, seqNo: int, actions: seq<Action>)
    ensures var s, t := Run(c, Init(server, seqNo), actions), TagsAfter(c, Init(server, seqNo), actions);
            InOrder(t) ==> s.past.acked + InFlight(s) + s.buf + s.spill == t.enqueued
  {
    var s, t := Run(c, Init(server, seqNo), actions), TagsAfter(c, Init(server, seqNo), actions);
    RunTags(c, server, seqNo, actions);
    NamesJoin(t.line, Line(s), t.shelf, s.spill, t.enqueued);
  }
}
