/**
 Agreement between the informer caches and the control plane, over every run of the upload
 protocol: it holds throughout exactly when every step is harmless, and then a drained queue
 means the control plane holds the cache plus whatever rows this process never touched.
 */
module Convergence {
  import opened Options
  import opened Inventory
  import opened UploadProtocol

  lemma One(e: Event, r: Ref)
    ensures LastEffect([e], r) == if e.ref == r then Some(Effect(e)) else None
    ensures Mentions([e], r) <==> e.ref == r
  {
    LastMentions([e], r);
  }

  /** Moving a notice to the end of a queue: what decides each ref before and after. */
  lemma MoveNotice(a: seq<Event>, e: Event, b: seq<Event>, pre: seq<Event>, post: seq<Event>, r: Ref)
    requires !Mentions(pre, e.ref)
    ensures var before, after := LastEffect(a + b + (pre + [e] + post), r), LastEffect(a + [e] + b + (pre + post), r);
            if r != e.ref || Mentions(post, r) || !Mentions(b, r) then before == after
            else before == Some(Effect(e)) && after == LastEffect(b, r)
  {
    One(e, r);
    LastMentions(pre, r);
    LastMentions(post, r);
    LastMentions(b, r);
    LastInConcat(a + b, pre + [e] + post, r);
    LastInConcat(pre + [e], post, r);
    LastInConcat(pre, [e], r);
    LastInConcat(a, b, r);
    LastInConcat(a + [e] + b, pre + post, r);
    LastInConcat(pre, post, r);
    LastInConcat(a + [e], b, r);
    LastInConcat(a, [e], r);
  }

  // ------------------------------------------------------ cache changes

  lemma ChangeAt(c: Config, s: State, e: Event, r: Ref)
    requires Enabled(c, s, Change(e))
    ensures var s' := Step(c, s, Change(e));
            && LastEffect(Pending(s'), r) == (if r == e.ref then Some(Effect(e)) else LastEffect(Pending(s), r))
            && (Mentions(Queued(s'), r) <==> r == e.ref || Mentions(Queued(s), r))
  {
    var s' := Step(c, s, Change(e));
    assert Pending(s') == Pending(s) + [e];
    assert Queued(s') == Queued(s) + [e];
    One(e, r);
    LastInConcat(Pending(s), [e], r);
    MentionsConcat(Queued(s), [e], r);
  }

  lemma ChangeAgrees(c: Config, s: State, e: Event)
    requires Enabled(c, s, Change(e)) && Agree(s)
    ensures Agree(Step(c, s, Change(e)))
  {
    var s' := Step(c, s, Change(e));
    forall r | r in s'.past.touched ensures RowAfter(s'.server, Pending(s'), r) == Row(s'.cache, r) {
      ChangeAt(c, s, e, r);
    }
  }

  lemma ChangeKeeps(initial: Table, c: Config, s: State, e: Event)
    requires Inv(initial, s) && Enabled(c, s, Change(e))
    ensures Inv(initial, Step(c, s, Change(e)))
  {
    var s' := Step(c, s, Change(e));
    assert Pending(s') == Pending(s) + [e];
    forall x | x in SnapshotEvents(s') ensures Fresh(s', x) {
      assert Fresh(s, x);
      ChangeAt(c, s, e, x.ref);
    }
  }

  // -------------------------------------------------------------- enqueuing

  lemma DeliverAt(c: Config, s: State, i: nat, r: Ref)
    requires Enabled(c, s, Deliver(i))
    ensures var s', e := Step(c, s, Deliver(i)), s.notices[i];
            && (Mentions(Queued(s'), r) <==> Mentions(Queued(s), r))
            && if |s.buf| < c.capacity && r == e.ref && Mentions(s.spill, r) && !Mentions(Without(s.notices, i), r)
               then LastEffect(Pending(s), r) == Some(Effect(e)) && LastEffect(Pending(s'), r) == LastEffect(s.spill, r)
               else LastEffect(Pending(s'), r) == LastEffect(Pending(s), r)
  {
    var s' := Step(c, s, Deliver(i));
    var e, pre, post := s.notices[i], s.notices[..i], s.notices[i + 1..];
    assert s.notices == pre + [e] + post;
    var fits := |s.buf| < c.capacity;
    var a := if fits then s.buf else s.buf + s.spill;
    var b := if fits then s.spill else [];
    assert Queued(s) == a + b + (pre + [e] + post);
    assert Queued(s') == a + [e] + b + (pre + post);
    MoveNotice(a, e, b, pre, post, r);
    MentionsConcat(pre, post, r);
    LastMentions(s.spill, r);
    LastMentions(Queued(s), r);
    LastMentions(Queued(s'), r);
    LastInConcat(InFlight(s), Queued(s), r);
    LastInConcat(InFlight(s), Queued(s'), r);
  }

  lemma DeliverAgrees(c: Config, s: State, i: nat)
    requires Enabled(c, s, Deliver(i)) && Agree(s) && AllTouched(Pending(s), s.past.touched)
    ensures Agree(Step(c, s, Deliver(i))) <==> Harmless(c, s, Deliver(i))
  {
    var s', e := Step(c, s, Deliver(i)), s.notices[i];
    assert e in Pending(s);
    DeliverAt(c, s, i, e.ref);
    LastMentions(s.spill, e.ref);
    if Harmless(c, s, Deliver(i)) {
      forall r | r in s'.past.touched ensures RowAfter(s'.server, Pending(s'), r) == Row(s'.cache, r) {
        DeliverAt(c, s, i, r);
      }
    }
    if Agree(s') {
      assert RowAfter(s'.server, Pending(s'), e.ref) == Row(s.cache, e.ref) == RowAfter(s.server, Pending(s), e.ref);
    }
  }

  lemma DeliverKeeps(initial: Table, c: Config, s: State, i: nat)
    requires Inv(initial, s) && Enabled(c, s, Deliver(i))
    ensures Inv(initial, Step(c, s, Deliver(i)))
  {
    var s' := Step(c, s, Deliver(i));
    forall x | x in Pending(s') ensures x in Pending(s) { }
    forall x | x in SnapshotEvents(s') ensures Fresh(s', x) {
      assert Fresh(s, x);
      DeliverAt(c, s, i, x.ref);
    }
  }

  // -------------------------------------------------------------- the wire

  /** The event that decides a ref is one of the events. */
  lemma {:induction false} LastIsThere(events: seq<Event>, r: Ref) returns (e: Event)
    requires Mentions(events, r)
    ensures e in events && e.ref == r && LastEffect(events, r) == Some(Effect(e))
  {
    var last := events[|events| - 1];
    if last.ref == r {
      e := last;
    } else {
      LastMentions(events, r);
      LastMentions(events[..|events| - 1], r);
      e := LastIsThere(events[..|events| - 1], r);
    }
  }

  lemma OnWireIsOurs(c: Config, s: State)
    ensures forall e | e in OnWire(c, s) :: e in InFlight(s) || e in SnapshotEvents(s)
  {
  }

  lemma WireTouched(initial: Table, c: Config, s: State)
    requires Inv(initial, s)
    ensures AllTouched(OnWire(c, s), s.past.touched)
  {
    OnWireIsOurs(c, s);
    forall e | e in OnWire(c, s) ensures e.ref in s.past.touched {
      assert e in InFlight(s) ==> e in Pending(s);
      assert e in SnapshotEvents(s) ==> Fresh(s, e);
    }
  }

  lemma ArriveAgrees(initial: Table, c: Config, s: State)
    requires Inv(initial, s) && Enabled(c, s, Arrive) && Agree(s)
    ensures Agree(Step(c, s, Arrive))
  {
    var s', w := Step(c, s, Arrive), OnWire(c, s);
    assert Pending(s') == Pending(s);
    forall r | r in s'.past.touched ensures RowAfter(s'.server, Pending(s'), r) == Row(s'.cache, r) {
      ApplyAt(s.server, w, r);
      LastMentions(w, r);
      LastInConcat(InFlight(s), Queued(s), r);
      LastMentions(Queued(s), r);
      if s.phase.Snapshotting? && Mentions(w, r) && !Mentions(Queued(s), r) {
        var e := LastIsThere(w, r);
        OnWireIsOurs(c, s);
        assert Fresh(s, e);
      }
    }
  }

  lemma ArriveKeeps(initial: Table, c: Config, s: State)
    requires Inv(initial, s) && Enabled(c, s, Arrive)
    ensures Inv(initial, Step(c, s, Arrive))
  {
    var s', w := Step(c, s, Arrive), OnWire(c, s);
    assert Pending(s') == Pending(s) && Queued(s') == Queued(s);
    WireTouched(initial, c, s);
    forall r ensures Row(s'.server, r) == RowAfter(s.server, w, r) {
      ApplyAt(s.server, w, r);
    }
    forall r | r !in s'.past.touched ensures Row(s'.server, r) == Row(initial, r) {
      LastMentions(w, r);
    }
    forall r | Mentions(w, r) ensures Some(Row(s'.server, r)) == LastEffect(w, r) {
      LastMentions(w, r);
    }
    forall x | x in SnapshotEvents(s') ensures Fresh(s', x) {
      assert Fresh(s, x);
    }
  }

  /** What a batch that is applied late does to a ref. */
  lemma LateAt(c: Config, s: State, i: nat, r: Ref)
    requires Enabled(c, s, ArriveLate(i))
    ensures var s', late := Step(c, s, ArriveLate(i)), s.past.attempts[i].events;
            && Pending(s') == Pending(s) && (LastEffect(late, r).Some? <==> Mentions(late, r))
            && RowAfter(s'.server, Pending(s'), r) ==
               (if Mentions(Pending(s), r) || !Mentions(late, r) then RowAfter(s.server, Pending(s), r)
                else LastEffect(late, r).value)
            && (!Mentions(Pending(s), r) ==> RowAfter(s.server, Pending(s), r) == Row(s.server, r))
  {
    var late := s.past.attempts[i].events;
    assert InFlight(Step(c, s, ArriveLate(i))) == InFlight(s);
    ApplyAt(s.server, late, r);
    LastMentions(late, r);
    LastMentions(Pending(s), r);
  }

  /** A batch whose send failed, applied after all. */
  lemma LateAgrees(initial: Table, c: Config, s: State, i: nat)
    requires Inv(initial, s) && Enabled(c, s, ArriveLate(i)) && Agree(s)
    ensures Agree(Step(c, s, ArriveLate(i))) <==> Harmless(c, s, ArriveLate(i))
  {
    var s', late := Step(c, s, ArriveLate(i)), s.past.attempts[i].events;
    assert s.past.attempts[i] in s.past.attempts;
    if Agree(s') {
      forall r | Mentions(late, r) && !Mentions(Pending(s), r) ensures Some(Row(s.server, r)) == LastEffect(late, r) {
        var e := LastIsThere(late, r);
        LateAt(c, s, i, r);
        assert r in s.past.touched;
      }
    }
    if Harmless(c, s, ArriveLate(i)) {
      forall r | r in s'.past.touched ensures RowAfter(s'.server, Pending(s'), r) == Row(s'.cache, r) {
        LateAt(c, s, i, r);
      }
    }
  }

  lemma LateKeeps(initial: Table, c: Config, s: State, i: nat)
    requires Inv(initial, s) && Enabled(c, s, ArriveLate(i))
    ensures Inv(initial, Step(c, s, ArriveLate(i)))
  {
    var s', late := Step(c, s, ArriveLate(i)), s.past.attempts[i].events;
    assert Pending(s') == Pending(s) && Queued(s') == Queued(s);
    assert s.past.attempts[i] in s.past.attempts;
    forall r | r !in s'.past.touched ensures Row(s'.server, r) == Row(initial, r) {
      ApplyAt(s.server, late, r);
      LastMentions(late, r);
    }
    forall x | x in SnapshotEvents(s') ensures Fresh(s', x) {
      assert Fresh(s, x);
    }
  }

  /** A delta batch that returned without error leaves the queue. */
  lemma AckedAgrees(c: Config, s: State)
    requires Enabled(c, s, Return(true)) && s.phase.Sending? && Agree(s) && AllTouched(Pending(s), s.past.touched)
    ensures Agree(Step(c, s, Return(true))) <==> Harmless(c, s, Return(true))
  {
    var s', batch := Step(c, s, Return(true)), s.phase.batch;
    assert Pending(s') == Queued(s);
    forall r
      ensures LastEffect(Pending(s), r) ==
              if Mentions(Queued(s), r) then LastEffect(Pending(s'), r) else LastEffect(batch, r)
      ensures LastEffect(Queued(s), r).Some? <==> Mentions(Queued(s), r)
      ensures LastEffect(batch, r).Some? <==> Mentions(batch, r)
    {
      LastInConcat(batch, Queued(s), r);
      LastMentions(Queued(s), r);
      LastMentions(batch, r);
    }
    if Agree(s') {
      forall r | Mentions(batch, r) && !Mentions(Queued(s), r)
        ensures Some(Row(s.server, r)) == LastEffect(batch, r)
      {
        var e := LastIsThere(batch, r);
        assert e in Pending(s);
        assert RowAfter(s'.server, Pending(s'), r) == RowAfter(s.server, Pending(s), r);
      }
    }
    if Harmless(c, s, Return(true)) {
      forall r | r in s'.past.touched ensures RowAfter(s'.server, Pending(s'), r) == Row(s'.cache, r) {
        assert RowAfter(s.server, Pending(s), r) == Row(s.cache, r);
      }
    }
  }

  function Unsent(s: State): nat {
    |InFlight(s)| + |s.buf| + |s.spill|
  }

  /** Steps that neither move an event between queues nor change a table. */
  predicate Quiet(c: Config, s: State, a: Action) {
    match a
    case Return(ok) => !s.phase.Sending? || !ok
    case Change(_) => false
    case Deliver(_) => false
    case Arrive => false
    case ArriveLate(_) => false
    case _ => true
  }

  lemma QuietAgrees(c: Config, s: State, a: Action)
    requires Quiet(c, s, a)
    ensures Pending(Step(c, s, a)) == Pending(s)
    ensures Agree(Step(c, s, a)) <==> Agree(s)
  {
    if a.Take? {
      TakePending(c, s);
    } else if a.Return? {
      RequeuePending(c, s);
    }
  }

  lemma Regroup<T>(a: seq<T>, b: seq<T>, c: seq<T>, d: seq<T>)
    ensures a + (b + c + d) == (a + b) + c + d
  {
  }

  lemma TakePending(c: Config, s: State)
    ensures Pending(Step(c, s, Take)) == Pending(s)
    ensures Unsent(Step(c, s, Take)) == Unsent(s)
  {
    if Enabled(c, s, Take) {
      var s', all := Step(c, s, Take), Replayed(s.buf, s.spill);
      Regroup(InFlight(s'), s'.buf, s'.spill, s.notices);
      Regroup(InFlight(s), s.buf, s.spill, s.notices);
      assert InFlight(s') + s'.buf == all;
      assert all + s'.spill == InFlight(s) + s.buf + s.spill;
      assert |InFlight(s')| + |s'.buf| == |all|;
    }
  }

  lemma RequeuePending(c: Config, s: State)
    ensures Pending(Step(c, s, Return(false))) == Pending(s)
  {
    if s.phase.Sending? {
      assert s.phase.batch + s.buf + s.spill + s.notices == s.phase.batch + (s.buf + s.spill + s.notices);
    }
  }

  lemma SnapshotShrinks(c: Config, s: State, a: Action, x: Event)
    requires Enabled(c, s, a) && (a.Return? || a.EndRead? || a.SnapshotDone? || a.BeginSnapshot? || a.Take?)
    requires x in SnapshotEvents(Step(c, s, a))
    ensures x in SnapshotEvents(s) && Queued(Step(c, s, a)) == Queued(s)
  {
  }

  lemma QuietKeeps(initial: Table, c: Config, s: State, a: Action)
    requires Inv(initial, s) && (a.Return? || Quiet(c, s, a)) && Enabled(c, s, a)
    ensures Inv(initial, Step(c, s, a))
  {
    var s' := Step(c, s, a);
    assert AllTouched(Pending(s'), s.past.touched) by {
      if a == Return(true) && s.phase.Sending? {
        assert Pending(s') == Queued(s);
      } else {
        QuietAgrees(c, s, a);
      }
    }
    if a.Return? {
      WireTouched(initial, c, s);
    }
    forall x | x in SnapshotEvents(s') ensures Fresh(s', x) {
      if a.ReadObject? {
        assert x in SnapshotEvents(s) ==> Fresh(s, x);
        assert a.ref in s.cache.Keys;
      } else {
        SnapshotShrinks(c, s, a, x);
        assert Fresh(s, x);
      }
    }
  }

  // --------------------------------------------------------------- every run

  lemma StepKeeps(initial: Table, c: Config, s: State, a: Action)
    requires Inv(initial, s)
    ensures Inv(initial, Step(c, s, a))
  {
    if Enabled(c, s, a) {
      match a
      case Change(e) => ChangeKeeps(initial, c, s, e);
      case Deliver(i) => DeliverKeeps(initial, c, s, i);
      case Arrive => ArriveKeeps(initial, c, s);
      case ArriveLate(i) => LateKeeps(initial, c, s, i);
      case _ => QuietKeeps(initial, c, s, a);
    }
  }

  /** One step keeps agreement exactly when it is harmless. */
  lemma StepAgrees(initial: Table, c: Config, s: State, a: Action)
    requires Inv(initial, s) && Agree(s)
    ensures Agree(Step(c, s, a)) <==> Harmless(c, s, a)
  {
    if Enabled(c, s, a) {
      match a
      case Change(e) => ChangeAgrees(c, s, e);
      case Deliver(i) => DeliverAgrees(c, s, i);
      case Arrive => ArriveAgrees(initial, c, s);
      case ArriveLate(i) => LateAgrees(initial, c, s, i);
      case Return(ok) => if s.phase.Sending? && ok { AckedAgrees(c, s); } else { QuietAgrees(c, s, a); }
      case _ => QuietAgrees(c, s, a);
    }
  }

  lemma {:induction false} RunKeeps(initial: Table, seqNo: int, c: Config, actions: seq<Action>)
    ensures Inv(initial, Run(c, Init(initial, seqNo), actions))
  {
    if actions != [] {
      RunKeeps(initial, seqNo, c, actions[..|actions| - 1]);
      StepKeeps(initial, c, Run(c, Init(initial, seqNo), actions[..|actions| - 1]), actions[|actions| - 1]);
    }
  }

  ghost predicate AlwaysAgrees(c: Config, s: State, actions: seq<Action>) {
    forall k | 0 <= k <= |actions| :: Agree(Run(c, s, actions[..k]))
  }

  ghost predicate AlwaysHarmless(c: Config, s: State, actions: seq<Action>) {
    forall k | 0 <= k < |actions| :: Harmless(c, Run(c, s, actions[..k]), actions[k])
  }

  lemma RunUnfold(c: Config, s: State, actions: seq<Action>, k: nat)
    requires k < |actions|
    ensures Run(c, s, actions[..k + 1]) == Step(c, Run(c, s, actions[..k]), actions[k])
  {
    assert actions[..k + 1][..k] == actions[..k];
  }

  /** Over every run: agreement holds after each step exactly when each step is harmless. */
  lemma {:induction false} AgreementOverRuns(initial: Table, seqNo: int, c: Config, actions: seq<Action>)
    ensures AlwaysAgrees(c, Init(initial, seqNo), actions) <==> AlwaysHarmless(c, Init(initial, seqNo), actions)
  {
    var s := Init(initial, seqNo);
    forall k | 0 <= k < |actions| && Agree(Run(c, s, actions[..k]))
      ensures Agree(Run(c, s, actions[..k + 1])) <==> Harmless(c, Run(c, s, actions[..k]), actions[k])
    {
      RunUnfold(c, s, actions, k);
      RunKeeps(initial, seqNo, c, actions[..k]);
      StepAgrees(initial, c, Run(c, s, actions[..k]), actions[k]);
    }
    if AlwaysHarmless(c, s, actions) {
      var k := 0;
      while k < |actions|
        invariant 0 <= k <= |actions|
        invariant forall j | 0 <= j <= k :: Agree(Run(c, s, actions[..j]))
      {
        k := k + 1;
      }
    }
    if AlwaysAgrees(c, s, actions) {
      forall k | 0 <= k < |actions| ensures Harmless(c, Run(c, s, actions[..k]), actions[k]) {
        assert Agree(Run(c, s, actions[..k]));
        assert Agree(Run(c, s, actions[..k + 1]));
      }
    }
  }

  /**
   Convergence: in a harmless run, whenever nothing is pending the control plane holds the
   informer cache, plus exactly the rows it had at the start for refs this process never saw.
   */
  lemma Convergence(initial: Table, seqNo: int, c: Config, actions: seq<Action>)
    requires AlwaysHarmless(c, Init(initial, seqNo), actions)
    requires Pending(Run(c, Init(initial, seqNo), actions)) == []
    ensures var s := Run(c, Init(initial, seqNo), actions);
            s.server == (map r | r in initial && r !in s.past.touched :: initial[r]) + s.cache
  {
    var s := Run(c, Init(initial, seqNo), actions);
    AgreementOverRuns(initial, seqNo, c, actions);
    assert actions[..|actions|] == actions;
    assert Agree(s);
    RunKeeps(initial, seqNo, c, actions);
    var expected := (map r | r in initial && r !in s.past.touched :: initial[r]) + s.cache;
    forall r ensures Row(s.server, r) == Row(expected, r) {
      if r in s.past.touched {
        assert RowAfter(s.server, Pending(s), r) == Row(s.cache, r);
      }
    }
    SameRows(s.server, expected);
  }

  lemma SameRows(a: Table, b: Table)
    requires forall r :: Row(a, r) == Row(b, r)
    ensures a == b
  {
    forall r ensures r in a <==> r in b {
      assert Row(a, r) == Row(b, r);
    }
    forall r | r in a ensures a[r] == b[r] {
      assert Row(a, r) == Row(b, r);
    }
  }

  // ---------------------------------------------------- draining is possible

  /** What an undisturbed agent does next when every send succeeds. */
  function Next(s: State): Action {
    match s.phase
    case Reading(_) => EndRead
    case Snapshotting(rest, applied) => if rest == [] then SnapshotDone else if applied then Return(true) else Arrive
    case Sending(_, applied) => if applied then Return(true) else Arrive
    case Top => if s.needSnapshot then BeginSnapshot else if s.buf + s.spill != [] then Take else Deliver(0)
  }

  function Stage(s: State): nat {
    match s.phase
    case Sending(_, _) => 1
    case Top => if s.needSnapshot then 5 else 2
    case Snapshotting(_, _) => 3
    case Reading(_) => 4
  }

  function Left(s: State): nat {
    match s.phase
    case Snapshotting(rest, applied) => 2 * |rest| + if applied then 0 else 1
    case Sending(_, applied) => if applied then 0 else 1
    case _ => 0
  }

  lemma NextIsHarmless(initial: Table, c: Config, s: State)
    requires Inv(initial, s) && Pending(s) != []
    ensures Enabled(c, s, Next(s)) && Harmless(c, s, Next(s))
  {
    match s.phase
    case Top =>
      if !s.needSnapshot && s.buf + s.spill == [] {
        assert s.notices != [];
      }
    case _ =>
  }

  predicate Closer(s': State, s: State) {
    || |s'.notices| < |s.notices|
    || (|s'.notices| == |s.notices| && Unsent(s') < Unsent(s))
    || (|s'.notices| == |s.notices| && Unsent(s') == Unsent(s) && Stage(s') < Stage(s))
    || (|s'.notices| == |s.notices| && Unsent(s') == Unsent(s) && Stage(s') == Stage(s) && Left(s') < Left(s))
  }

  lemma SnapshotProgresses(c: Config, s: State)
    requires s.phase.Snapshotting? || s.phase.Reading?
    requires Enabled(c, s, Next(s))
    ensures Closer(Step(c, s, Next(s)), s)
  {
  }

  lemma SendProgresses(c: Config, s: State)
    requires s.phase.Sending? && s.phase.batch != []
    requires Enabled(c, s, Next(s))
    ensures Closer(Step(c, s, Next(s)), s)
  {
  }

  lemma TopProgresses(c: Config, s: State)
    requires s.phase.Top? && Pending(s) != []
    requires Enabled(c, s, Next(s))
    ensures Closer(Step(c, s, Next(s)), s)
  {
    TakePending(c, s);
  }

  lemma NextProgresses(initial: Table, c: Config, s: State)
    requires Inv(initial, s) && Pending(s) != [] && Enabled(c, s, Next(s))
    ensures Closer(Step(c, s, Next(s)), s)
    ensures Step(c, s, Next(s)).cache == s.cache
  {
    match s.phase
    case Sending(_, _) => SendProgresses(c, s);
    case Top => TopProgresses(c, s);
    case _ => SnapshotProgresses(c, s);
  }

  lemma {:induction false} RunFront(c: Config, s: State, a: Action, rest: seq<Action>)
    ensures Run(c, s, [a] + rest) == Run(c, Step(c, s, a), rest)
    decreases |rest|
  {
    if rest == [] {
      assert [a] + rest == [a];
      assert Run(c, s, []) == s;
    } else {
      assert ([a] + rest)[..|rest|] == [a] + rest[..|rest| - 1];
      RunFront(c, s, a, rest[..|rest| - 1]);
    }
  }

  predicate Undisturbed(actions: seq<Action>) {
    forall a | a in actions :: !a.Change? && !a.ArriveLate? && a != Return(false)
  }

  lemma HarmlessFront(c: Config, s: State, a: Action, rest: seq<Action>)
    requires Harmless(c, s, a) && AlwaysHarmless(c, Step(c, s, a), rest)
    ensures AlwaysHarmless(c, s, [a] + rest)
  {
    var actions := [a] + rest;
    forall k | 0 <= k < |actions| ensures Harmless(c, Run(c, s, actions[..k]), actions[k]) {
      if k > 0 {
        assert actions[..k] == [a] + rest[..k - 1];
        RunFront(c, s, a, rest[..k - 1]);
        assert Harmless(c, Run(c, Step(c, s, a), rest[..k - 1]), rest[k - 1]);
      }
    }
  }

  /** From every state, once sends succeed and no object changes, finitely many harmless steps drain the queues. */
  lemma {:induction false} Drains(initial: Table, c: Config, s: State) returns (actions: seq<Action>)
    requires Inv(initial, s)
    ensures AlwaysHarmless(c, s, actions) && Undisturbed(actions)
    ensures Pending(Run(c, s, actions)) == [] && Run(c, s, actions).cache == s.cache
    decreases |s.notices|, Unsent(s), Stage(s), Left(s)
  {
    if Pending(s) == [] {
      actions := [];
    } else {
      var a, next := OneStep(initial, c, s);
      var rest := Drains(initial, c, next);
      actions := [a] + rest;
      RunFront(c, s, a, rest);
      HarmlessFront(c, s, a, rest);
    }
  }

  /** One undisturbed step of an agent that is not done yet. */
  lemma OneStep(initial: Table, c: Config, s: State) returns (a: Action, next: State)
    requires Inv(initial, s) && Pending(s) != []
    ensures next == Step(c, s, a) && Harmless(c, s, a) && Undisturbed([a])
    ensures Inv(initial, next) && Closer(next, s) && next.cache == s.cache
  {
    a := Next(s);
    NextIsHarmless(initial, c, s);
    NextProgresses(initial, c, s);
    StepKeeps(initial, c, s, a);
    next := Step(c, s, a);
  }

  lemma {:induction false} RunConcat(c: Config, s: State, a: seq<Action>, b: seq<Action>)
    ensures Run(c, s, a + b) == Run(c, Run(c, s, a), b)
    decreases |b|
  {
    if b == [] {
      assert a + b == a;
    } else {
      assert (a + b)[..|a + b| - 1] == a + b[..|b| - 1];
      RunConcat(c, s, a, b[..|b| - 1]);
    }
  }

  lemma HarmlessConcat(c: Config, s: State, a: seq<Action>, b: seq<Action>)
    requires AlwaysHarmless(c, s, a) && AlwaysHarmless(c, Run(c, s, a), b)
    ensures AlwaysHarmless(c, s, a + b)
  {
    forall k | 0 <= k < |a + b| ensures Harmless(c, Run(c, s, (a + b)[..k]), (a + b)[k]) {
      if k < |a| {
        assert (a + b)[..k] == a[..k];
      } else {
        assert (a + b)[..k] == a + b[..k - |a|];
        RunConcat(c, s, a, b[..k - |a|]);
        assert Harmless(c, Run(c, Run(c, s, a), b[..k - |a|]), b[k - |a|]);
      }
    }
  }

  /** After any harmless run, quiet informers and working sends are enough for the control plane to catch up. */
  lemma CatchesUp(initial: Table, seqNo: int, c: Config, actions: seq<Action>) returns (more: seq<Action>)
    requires AlwaysHarmless(c, Init(initial, seqNo), actions)
    ensures Undisturbed(more)
    ensures var s, s' := Run(c, Init(initial, seqNo), actions), Run(c, Init(initial, seqNo), actions + more);
            && Pending(s') == [] && s'.cache == s.cache
            && s'.server == (map r | r in initial && r !in s'.past.touched :: initial[r]) + s.cache
  {
    var s := Init(initial, seqNo);
    RunKeeps(initial, seqNo, c, actions);
    more := Drains(initial, c, Run(c, s, actions));
    RunConcat(c, s, actions, more);
    HarmlessConcat(c, s, actions, more);
    Convergence(initial, seqNo, c, actions + more);
  }

  // ------------------------------------------------------- told by the changes alone

  /** The last change of an object that an informer saw. */
  function LastChange(actions: seq<Action>, r: Ref): Option<Event> {
    if actions == [] then None
    else
      match actions[|actions| - 1]
      case Change(e) =>
        if e.op != Op.Sync && e.ref == r then Some(e) else LastChange(actions[..|actions| - 1], r)
      case _ => LastChange(actions[..|actions| - 1], r)
  }

  /** What the last change of an object leaves in the cache: nothing after a delete, its payload otherwise. */
  ghost predicate AsLastChanged(s: State, r: Ref, last: Option<Event>) {
    match last
    case None => r !in s.cache && r !in s.past.touched
    case Some(e) =>
      && r in s.past.touched
      && if e.op == Op.Delete then r !in s.cache else r in s.cache && s.cache[r] == e.payload
  }

  lemma StepCache(c: Config, s: State, a: Action, r: Ref, last: Option<Event>)
    requires AsLastChanged(s, r, last)
    ensures AsLastChanged(Step(c, s, a), r,
                          if a.Change? && a.event.op != Op.Sync && a.event.ref == r then Some(a.event) else last)
  {
  }

  /** The cache after every run: a deleted object is gone, any other is as its last change left it. */
  lemma {:induction false} CacheIsLastChange(c: Config, server: Table, seqNo: int, actions: seq<Action>, r: Ref)
    ensures AsLastChanged(Run(c, Init(server, seqNo), actions), r, LastChange(actions, r))
  {
    if actions != [] {
      var n := |actions| - 1;
      CacheIsLastChange(c, server, seqNo, actions[..n], r);
      StepCache(c, Run(c, Init(server, seqNo), actions[..n]), actions[n], r, LastChange(actions[..n], r));
    }
  }

  /**
   Convergence, told by the changes alone: after a harmless run with nothing pending, the control
   plane has no row for an object whose last change was a delete, the payload of the last change of
   any other object that changed, and its initial row, or none, for an object that never did.
   */
  lemma LastChangeArrives(initial: Table, seqNo: int, c: Config, actions: seq<Action>, r: Ref)
    requires AlwaysHarmless(c, Init(initial, seqNo), actions)
    requires Pending(Run(c, Init(initial, seqNo), actions)) == []
    ensures var server := Run(c, Init(initial, seqNo), actions).server;
            match LastChange(actions, r)
            case None => if r in initial then r in server && server[r] == initial[r] else r !in server
            case Some(e) => if e.op == Op.Delete then r !in server else r in server && server[r] == e.payload
  {
    Convergence(initial, seqNo, c, actions);
    CacheIsLastChange(c, initial, seqNo, actions, r);
  }
}
