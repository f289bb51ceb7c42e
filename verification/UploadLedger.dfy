/**
 Bookkeeping over every run of the upload protocol, harmless or not: no event is lost or
 duplicated, events keep their order within the route they took, batches are numbered
 without gap or repeat, and every batch sent is one the server accepts.
 */
module UploadLedger {
  import opened Inventory
  import opened Batching
  import opened UploadProtocol

  /** The events carrying one of the two marks, in order. */
  function Pick(events: seq<Event>, marks: seq<bool>, mark: bool): seq<Event>
    requires |events| == |marks|
  {
    if events == [] then []
    else
      var n := |events| - 1;
      Pick(events[..n], marks[..n], mark) + if marks[n] == mark then [events[n]] else []
  }

  /** Everything that has left the spill file or never entered it, oldest first. */
  function Line(s: State): seq<Event> {
    s.past.acked + InFlight(s) + s.buf
  }

  /** Enqueued events are exactly the acknowledged, in-flight, buffered and spilled ones, route by route and in
   order. */
  ghost predicate Conserved(s: State) {
    && |s.past.fromSpill| == |Line(s)|
    && Pick(Line(s), s.past.fromSpill, false) == s.past.toMemory
    && Pick(Line(s), s.past.fromSpill, true) + s.spill == s.past.toSpill
  }

  lemma {:induction false} PickConcat(a: seq<Event>, ma: seq<bool>, b: seq<Event>, mb: seq<bool>, mark: bool)
    requires |a| == |ma| && |b| == |mb|
    ensures Pick(a + b, ma + mb, mark) == Pick(a, ma, mark) + Pick(b, mb, mark)
    decreases |b|
  {
    if b == [] {
      assert a + b == a && ma + mb == ma;
    } else {
      var n := |b| - 1;
      assert (a + b)[..|a| + n] == a + b[..n] && (ma + mb)[..|a| + n] == ma + mb[..n];
      PickConcat(a, ma, b[..n], mb[..n], mark);
    }
  }

  lemma {:induction false} PickUniform(events: seq<Event>, marks: seq<bool>, mark: bool)
    requires |events| == |marks| && forall i | 0 <= i < |marks| :: marks[i] == mark
    ensures Pick(events, marks, mark) == events && Pick(events, marks, !mark) == []
  {
    if events != [] {
      var n := |events| - 1;
      PickUniform(events[..n], marks[..n], mark);
      assert events[..n] + [events[n]] == events;
    }
  }

  lemma PickAppend(events: seq<Event>, marks: seq<bool>, e: Event, m: bool, mark: bool)
    requires |events| == |marks|
    ensures Pick(events + [e], marks + [m], mark) ==
            if m == mark then Pick(events, marks, mark) + [e] else Pick(events, marks, mark)
  {
    assert (events + [e])[..|events|] == events && (marks + [m])[..|marks|] == marks;
  }

  lemma DeliverConserves(c: Config, s: State, i: nat)
    requires Conserved(s) && Enabled(c, s, Deliver(i))
    ensures Conserved(Step(c, s, Deliver(i)))
  {
    var s', e := Step(c, s, Deliver(i)), s.notices[i];
    if |s.buf| < c.capacity {
      assert Line(s') == Line(s) + [e];
      PickAppend(Line(s), s.past.fromSpill, e, false, false);
      PickAppend(Line(s), s.past.fromSpill, e, false, true);
    } else {
      assert Line(s') == Line(s);
      Append(Pick(Line(s), s.past.fromSpill, true), s.spill, e);
    }
  }

  lemma Append(a: seq<Event>, b: seq<Event>, e: Event)
    ensures a + (b + [e]) == (a + b) + [e]
  {
  }

  lemma TakeConserves(c: Config, s: State)
    requires Conserved(s) && Enabled(c, s, Take)
    ensures Conserved(Step(c, s, Take))
  {
    var s', all := Step(c, s, Take), Replayed(s.buf, s.spill);
    TakeLine(c, s);
    if s.buf == [] && s.spill != [] {
      var marks := seq(|s.spill|, _ => true);
      SpillReplayed(s.past.acked, s.past.fromSpill, s.spill, marks);
    }
  }

  /** Taking a batch leaves the line as it was, or adds the replayed spill file to it. */
  lemma TakeLine(c: Config, s: State)
    requires Enabled(c, s, Take)
    ensures var s' := Step(c, s, Take);
            if s.buf == [] then Line(s) == s.past.acked && Line(s') == s.past.acked + s.spill else Line(s') == Line(s)
  {
    var s', all := Step(c, s, Take), Replayed(s.buf, s.spill);
    assert all != [] ==> InFlight(s') + s'.buf == all;
    assert Line(s') == s.past.acked + (InFlight(s') + s'.buf);
    assert Line(s) == s.past.acked + s.buf;
  }

  lemma SpillReplayed(line: seq<Event>, marks: seq<bool>, spill: seq<Event>, more: seq<bool>)
    requires |line| == |marks| && |spill| == |more| && forall i | 0 <= i < |more| :: more[i]
    ensures Pick(line + spill, marks + more, false) == Pick(line, marks, false)
    ensures Pick(line + spill, marks + more, true) == Pick(line, marks, true) + spill
  {
    PickConcat(line, marks, spill, more, false);
    PickConcat(line, marks, spill, more, true);
    PickUniform(spill, more, true);
  }

  lemma ReturnConserves(c: Config, s: State, ok: bool)
    requires Conserved(s) && Enabled(c, s, Return(ok))
    ensures Conserved(Step(c, s, Return(ok)))
  {
    var s' := Step(c, s, Return(ok));
    assert Line(s') == Line(s);
  }

  lemma StepConserves(c: Config, s: State, a: Action)
    requires Conserved(s)
    ensures Conserved(Step(c, s, a))
  {
    if Enabled(c, s, a) {
      match a
      case Deliver(i) => DeliverConserves(c, s, i);
      case Take => TakeConserves(c, s);
      case Return(ok) => ReturnConserves(c, s, ok);
      case _ => assert Line(Step(c, s, a)) == Line(s);
    }
  }

  lemma {:induction false} RunConserves(c: Config, server: Table, seqNo: int, actions: seq<Action>)
    ensures Conserved(Run(c, Init(server, seqNo), actions))
  {
    if actions != [] {
      RunConserves(c, server, seqNo, actions[..|actions| - 1]);
      StepConserves(c, Run(c, Init(server, seqNo), actions[..|actions| - 1]), actions[|actions| - 1]);
    }
  }

  lemma {:induction false} PickSplits(events: seq<Event>, marks: seq<bool>)
    requires |events| == |marks|
    ensures multiset(Pick(events, marks, false)) + multiset(Pick(events, marks, true)) == multiset(events)
  {
    if events != [] {
      var n := |events| - 1;
      PickSplits(events[..n], marks[..n]);
      assert events == events[..n] + [events[n]];
    }
  }

  /** Conservation over every run: what was enqueued is acknowledged, in flight, buffered or spilled, once each. */
  lemma NothingLost(c: Config, server: Table, seqNo: int, actions: seq<Action>)
    ensures var s := Run(c, Init(server, seqNo), actions);
            multiset(s.past.toMemory) + multiset(s.past.toSpill) ==
            multiset(s.past.acked) + multiset(InFlight(s)) + multiset(s.buf) + multiset(s.spill)
  {
    var s := Run(c, Init(server, seqNo), actions);
    RunConserves(c, server, seqNo, actions);
    PickSplits(Line(s), s.past.fromSpill);
    assert multiset(s.past.toSpill) == multiset(Pick(Line(s), s.past.fromSpill, true)) + multiset(s.spill);
  }

  /** Over every run, the acknowledged events of each route are a prefix of those enqueued on it. */
  lemma AckedInOrder(c: Config, server: Table, seqNo: int, actions: seq<Action>)
    ensures var s := Run(c, Init(server, seqNo), actions);
            && |s.past.acked| <= |s.past.fromSpill|
            && Pick(s.past.acked, s.past.fromSpill[..|s.past.acked|], false) <= s.past.toMemory
            && Pick(s.past.acked, s.past.fromSpill[..|s.past.acked|], true) <= s.past.toSpill
  {
    RunConserves(c, server, seqNo, actions);
    ConservedInOrder(Run(c, Init(server, seqNo), actions));
  }

  lemma ConservedInOrder(s: State)
    requires Conserved(s)
    ensures |s.past.acked| <= |s.past.fromSpill|
    ensures Pick(s.past.acked, s.past.fromSpill[..|s.past.acked|], false) <= s.past.toMemory
    ensures Pick(s.past.acked, s.past.fromSpill[..|s.past.acked|], true) <= s.past.toSpill
  {
    var tail := InFlight(s) + s.buf;
    assert Line(s) == s.past.acked + tail;
    PrefixPicks(s.past.acked, tail, s.past.fromSpill, false);
    PrefixPicks(s.past.acked, tail, s.past.fromSpill, true);
    var spilled := Pick(Line(s), s.past.fromSpill, true);
    assert spilled <= spilled + s.spill;
  }

  lemma PrefixPicks(front: seq<Event>, tail: seq<Event>, marks: seq<bool>, mark: bool)
    requires |front + tail| == |marks|
    ensures Pick(front, marks[..|front|], mark) <= Pick(front + tail, marks, mark)
  {
    assert marks == marks[..|front|] + marks[|front|..];
    PickConcat(front, marks[..|front|], tail, marks[|front|..], mark);
  }

  // ------------------------------------------------------ numbers and batches

  function Accepted(attempts: seq<Attempt>): seq<int> {
    if attempts == [] then []
    else
      var n := |attempts| - 1;
      Accepted(attempts[..n]) + if attempts[n].ok then [attempts[n].number] else []
  }

  /** The number used after attempt `i`. */
  function NumberAfter(attempts: seq<Attempt>, seqNo: int, i: nat): int
    requires i < |attempts|
  {
    if i + 1 < |attempts| then attempts[i + 1].number else seqNo + 1
  }

  /** Attempts numbered from `first`: a success moves on, a failure's number is used again. */
  ghost predicate Numbered(attempts: seq<Attempt>, seqNo: int, first: int) {
    var done := Accepted(attempts);
    && seqNo == first + |done|
    && (forall k | 0 <= k < |done| :: done[k] == first + 1 + k)
    && (forall i | 0 <= i < |attempts| ::
          NumberAfter(attempts, seqNo, i) == attempts[i].number + if attempts[i].ok then 1 else 0)
  }

  lemma NextNumber(attempts: seq<Attempt>, seqNo: int, first: int, a: Attempt)
    requires Numbered(attempts, seqNo, first) && a.number == seqNo + 1
    ensures Numbered(attempts + [a], if a.ok then seqNo + 1 else seqNo, first)
  {
    var all := attempts + [a];
    assert all[..|attempts|] == attempts;
    forall i | 0 <= i < |attempts|
      ensures NumberAfter(all, if a.ok then seqNo + 1 else seqNo, i) == NumberAfter(attempts, seqNo, i)
      ensures all[i] == attempts[i]
    {
    }
  }

  ghost predicate Accepts(c: Config, s: State) {
    && (s.phase.Sending? ==> Filled(s.phase.batch, s.past.cut, c.maxBytes))
    && forall a | a in s.past.attempts :: Filled(a.events, a.queue, c.maxBytes)
  }

  lemma StepAttempts(c: Config, s: State, a: Action)
    ensures var s' := Step(c, s, a);
            if Enabled(c, s, a) && a.Return? then
              && s'.past.attempts == s.past.attempts + [Made(c, s, a.ok)]
              && s'.seqNo == (if a.ok then s.seqNo + 1 else s.seqNo)
            else s'.past.attempts == s.past.attempts && s'.seqNo == s.seqNo
  {
  }

  lemma StepNumbers(c: Config, s: State, a: Action, first: int)
    requires Numbered(s.past.attempts, s.seqNo, first)
    ensures var s' := Step(c, s, a); Numbered(s'.past.attempts, s'.seqNo, first)
  {
    StepAttempts(c, s, a);
    if Enabled(c, s, a) && a.Return? {
      NextNumber(s.past.attempts, s.seqNo, first, Made(c, s, a.ok));
    }
  }

  lemma TakeAccepts(c: Config, s: State)
    requires Accepts(c, s) && Enabled(c, s, Take)
    ensures Accepts(c, Step(c, s, Take))
  {
    if Replayed(s.buf, s.spill) != [] {
      FullIsFilled(Replayed(s.buf, s.spill), c.maxBytes);
    }
  }

  lemma ReturnAccepts(c: Config, s: State, ok: bool)
    requires Accepts(c, s) && Enabled(c, s, Return(ok))
    ensures Accepts(c, Step(c, s, Return(ok)))
  {
    StepAttempts(c, s, Return(ok));
    if s.phase.Snapshotting? {
      FullIsFilled(s.phase.rest, c.maxBytes);
    }
  }

  lemma StepAccepts(c: Config, s: State, a: Action)
    requires Accepts(c, s)
    ensures Accepts(c, Step(c, s, a))
  {
    if Enabled(c, s, a) {
      match a
      case Take => TakeAccepts(c, s);
      case Return(ok) => ReturnAccepts(c, s, ok);
      case _ => StepAttempts(c, s, a);
    }
  }

  /**
   Sequence discipline over every run: accepted batches carry first+1, first+2, ... without gap
   or repeat, the number of a failed attempt is the number of the next one, and every batch ever
   sent is within the limits and as long as they allow.
   */
  lemma {:induction false} RunNumbers(c: Config, server: Table, first: int, actions: seq<Action>)
    ensures var s := Run(c, Init(server, first), actions); Numbered(s.past.attempts, s.seqNo, first)
    ensures Accepts(c, Run(c, Init(server, first), actions))
  {
    if actions != [] {
      RunNumbers(c, server, first, actions[..|actions| - 1]);
      var s := Run(c, Init(server, first), actions[..|actions| - 1]);
      StepNumbers(c, s, actions[|actions| - 1], first);
      StepAccepts(c, s, actions[|actions| - 1]);
    }
  }
}
