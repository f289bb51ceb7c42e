/**
 What the poll loop does over a whole script: every round sends one poll, exactly an ok response
 confirms and clears what it carried, and every report a handler makes is handed on.
 */
module ReceiverRounds {
  import opened Replay
  import opened Receiver
  import Reports

  // ------------------------------------------------------- between two polls

  /** A step that belongs to no poll of the loop. */
  predicate Quiet(a: Reports.Action) {
    a.Deliver? || a.FrameArrives? || a.RequestArrives?
  }

  lemma {:induction false} QuietSteps(e: Steps, f: Steps)
    requires forall a | a in f :: Quiet(a)
    ensures Continues(Reports.Run(e), Reports.Run(e + f))
    decreases |f|
  {
    if f == [] {
      assert e + f == e;
    } else {
      var n := |f| - 1;
      QuietSteps(e, f[..n]);
      assert f[n] in f && e + f == e + f[..n] + [f[n]];
      Stepped(e + f[..n], f[n]);
    }
  }

  lemma Stepped(e: Steps, a: Reports.Action)
    ensures Reports.Run(e + [a]) == Reports.Step(Reports.Run(e), a)
  {
    assert (e + [a])[..|e|] == e;
  }

  lemma ToldQuiet(cfg: Config, c: State, h: Happening)
    ensures forall a | a in Told(cfg, c, h) :: Quiet(a)
  {
  }

  lemma LastHappened(cfg: Config, before: Deliveries, hs: seq<Happening>, n: nat)
    requires n + 1 == |hs|
    ensures Happened(cfg, before, hs) ==
            Happened(cfg, before, hs[..n]) + Told(cfg, Replay.Run(cfg, before + Pushes(hs[..n])), hs[n])
  {
  }

  lemma {:induction false} HappenedQuiet(cfg: Config, before: Deliveries, hs: seq<Happening>)
    ensures forall a | a in Happened(cfg, before, hs) :: Quiet(a)
  {
    if hs != [] {
      var n := |hs| - 1;
      HappenedQuiet(cfg, before, hs[..n]);
      ToldQuiet(cfg, Replay.Run(cfg, before + Pushes(hs[..n])), hs[n]);
      LastHappened(cfg, before, hs, n);
    }
  }

  lemma {:induction false} HandledQuiet(cfg: Config, before: Deliveries, batch: seq<Arrival>)
    ensures forall a | a in Handled(cfg, before, batch) :: Quiet(a)
  {
    if batch != [] {
      var n := |batch| - 1;
      HandledQuiet(cfg, before, batch[..n]);
      HappenedQuiet(cfg, before + Answered(batch[..n]), batch[n].first);
    }
  }

  // ----------------------------------------------------------- every round polls

  lemma PollPolls(cfg: Config, before: Deliveries, e: Steps, meanwhile: seq<Happening>, response: Response)
    requires Reports.Run(e).polling.None?
    ensures var s := Reports.Run(e);
            var s' := Reports.Run(e + Polled(cfg, before, NextPoll(s), meanwhile, response));
            PollDone(s, s', response.Success?) && s'.polling.None?
  {
    var p, served := NextPoll(Reports.Run(e)), response.Success? || response.served;
    var sent := e + [Reports.PollStarts];
    var told := sent + Happened(cfg, before, meanwhile);
    var last := told + if served then [Reports.RequestArrives(p)] else [];
    var done := last + [Reports.PollReturns(response.Success?)];
    Stepped(e, Reports.PollStarts);
    HappenedQuiet(cfg, before, meanwhile);
    QuietSteps(sent, Happened(cfg, before, meanwhile));
    Stepped(told, Reports.RequestArrives(p));
    assert !served ==> last == told;
    Stepped(last, Reports.PollReturns(response.Success?));
    Reports.RunKeeps(told);
    PollIsDone(Reports.Run(e), Reports.Run(sent), Reports.Run(told), Reports.Run(last), Reports.Run(done),
               response.Success?, served);
    PolledTogether(e, sent, told, done, cfg, before, p, meanwhile, response);
  }

  lemma RoundPolls(cfg: Config, before: Deliveries, e: Steps, x: Exchange)
    requires Reports.Run(e).polling.None?
    ensures var s := Reports.Run(e);
            var s' := Reports.Run(e + RoundSteps(cfg, before, NextPoll(s), x));
            PollDone(s, s', x.response.Success?) && s'.polling.None?
  {
    var p, d := NextPoll(Reports.Run(e)), before + Pushes(x.meanwhile);
    var polled := e + Polled(cfg, before, p, x.meanwhile, x.response);
    var handled, asleep := Handled(cfg, d, Brought(x)), Happened(cfg, d + Answered(Brought(x)), x.asleep);
    PollPolls(cfg, before, e, x.meanwhile, x.response);
    HandledQuiet(cfg, d, Brought(x));
    QuietSteps(polled, handled);
    HappenedQuiet(cfg, d + Answered(Brought(x)), x.asleep);
    QuietSteps(polled + handled, asleep);
    RoundTogether(cfg, x, p, before, e, polled, polled + handled, polled + handled + asleep);
  }

  /** The report protocol after the first `k` rounds of a script. */
  ghost function After(cfg: Config, before: Deliveries, past: Steps, script: seq<Exchange>, k: nat): Reports.State
    requires k <= |script|
  {
    Reports.Run(past + ScriptSteps(cfg, before, past, script[..k]))
  }

  lemma AfterNone(cfg: Config, before: Deliveries, past: Steps, script: seq<Exchange>)
    ensures After(cfg, before, past, script, 0) == Reports.Run(past)
  {
    assert past + ScriptSteps(cfg, before, past, script[..0]) == past;
  }

  lemma NextRound(cfg: Config, before: Deliveries, past: Steps, script: seq<Exchange>, k: nat)
    requires k < |script| && After(cfg, before, past, script, k).polling.None?
    ensures PollDone(After(cfg, before, past, script, k), After(cfg, before, past, script, k + 1),
                     script[k].response.Success?)
    ensures After(cfg, before, past, script, k + 1).polling.None?
  {
    var e, d := past + ScriptSteps(cfg, before, past, script[..k]), before + AllCommands(script[..k]);
    RoundPolls(cfg, d, e, script[k]);
    OneRoundMore(cfg, script, k, before, past, e, e + RoundSteps(cfg, d, NextPoll(Reports.Run(e)), script[k]));
  }

  /** A round that starts between two polls ends so; hence every round of the loop does. */
  lemma {:induction false} NeverMidPoll(states: seq<Reports.State>, k: nat)
    requires k < |states| && states[0].polling.None?
    requires forall i | 0 <= i < |states| - 1 :: states[i].polling.None? ==> states[i + 1].polling.None?
    ensures states[k].polling.None?
  {
    if k > 0 {
      NeverMidPoll(states, k - 1);
      assert states[k - 1].polling.None? ==> states[k - 1 + 1].polling.None?;
    }
  }

  /** The polls that start from these states, or those of them that return ok. */
  ghost function PollsFrom(states: seq<Reports.State>, which: seq<bool>, k: nat): set<Reports.Poll>
    requires k <= |states| && k <= |which|
  {
    set i | 0 <= i < k && which[i] :: NextPoll(states[i])
  }

  lemma {:induction false} PollsAddUp(states: seq<Reports.State>, oks: seq<bool>, k: nat)
    requires k < |states| == |oks| + 1
    requires forall i | 0 <= i < |oks| :: PollDone(states[i], states[i + 1], oks[i])
    ensures states[k].requests == states[0].requests + set i | 0 <= i < k :: NextPoll(states[i])
    ensures states[k].accepted == states[0].accepted + PollsFrom(states, oks, k)
    ensures forall i | 0 <= i < k && oks[i] :: states[k].front >= |states[i].all|
  {
    if k > 0 {
      PollsAddUp(states, oks, k - 1);
      assert PollDone(states[k - 1], states[k - 1 + 1], oks[k - 1]);
      var was, now := PollsFrom(states, oks, k - 1), PollsFrom(states, oks, k);
      assert now == was + if oks[k - 1] then {NextPoll(states[k - 1])} else {};
      var sent, sent' := set i | 0 <= i < k - 1 :: NextPoll(states[i]), set i | 0 <= i < k :: NextPoll(states[i]);
      assert sent' == sent + {NextPoll(states[k - 1])};
    }
  }

  /**
   Every round sends one poll with the whole queue; at the end, exactly the polls of the ok rounds
   have been confirmed besides the earlier ones, and whatever an ok round carried has left the queue.
   */
  lemma EveryRoundPolls(cfg: Config, before: Deliveries, past: Steps, script: seq<Exchange>, states: seq<Reports.State>,
                        oks: seq<bool>)
    requires Reports.Run(past).polling.None? && |states| == |script| + 1 && |oks| == |script|
    requires forall k | 0 <= k <= |script| :: states[k] == After(cfg, before, past, script, k)
    requires forall k | 0 <= k < |script| :: oks[k] == script[k].response.Success?
    ensures var s := Reports.Run(past + ScriptSteps(cfg, before, past, script));
            && s.requests == Reports.Run(past).requests + (set k | 0 <= k < |script| :: NextPoll(states[k]))
            && s.accepted == Reports.Run(past).accepted + PollsFrom(states, oks, |script|)
            && forall k | 0 <= k < |script| && oks[k] :: s.front >= |states[k].all|
  {
    AfterNone(cfg, before, past, script);
    forall k | 0 <= k < |script|
      ensures states[k].polling.None? ==> PollDone(states[k], states[k + 1], oks[k]) && states[k + 1].polling.None?
    {
      if states[k].polling.None? {
        NextRound(cfg, before, past, script, k);
      }
    }
    forall k | 0 <= k < |script| ensures PollDone(states[k], states[k + 1], oks[k]) {
      NeverMidPoll(states, k);
    }
    PollsAddUp(states, oks, |script|);
    assert script[..|script|] == script;
  }

  // ------------------------------------------------------- every report is handed on

  /** The reports handed to `deliverReport`, in order. */
  function Issued(e: Steps): seq<Reports.Report> {
    if e == [] then []
    else
      var n := |e| - 1;
      Issued(e[..n]) + if e[n].Deliver? then [e[n].report] else []
  }

  lemma {:induction false} IssuedExactly(e: Steps)
    ensures Reports.Run(e).issued == Issued(e)
    ensures forall a | a in e && a.Deliver? :: a.report in Issued(e)
  {
    if e != [] {
      IssuedExactly(e[..|e| - 1]);
    }
  }

  /** It happens somewhere in this round. */
  predicate HappensIn(h: Happening, x: Exchange) {
    h in x.meanwhile || h in x.asleep || exists i | 0 <= i < |Brought(x)| :: h in Brought(x)[i].first
  }

  lemma {:induction false} HappenedHolds(cfg: Config, before: Deliveries, hs: seq<Happening>, h: Happening)
    requires h in hs && h.Reported?
    ensures Delivery(h.report, h.ch) in Happened(cfg, before, hs)
  {
    var n := |hs| - 1;
    if h != hs[n] {
      HappenedHolds(cfg, before, hs[..n], h);
    }
  }

  lemma {:induction false} HandledHolds(cfg: Config, before: Deliveries, batch: seq<Arrival>, i: nat, h: Happening)
    requires i < |batch| && h in batch[i].first && h.Reported?
    ensures Delivery(h.report, h.ch) in Handled(cfg, before, batch)
    decreases |batch|
  {
    var n := |batch| - 1;
    if i == n {
      HappenedHolds(cfg, before + Answered(batch[..n]), batch[n].first, h);
    } else {
      HandledHolds(cfg, before, batch[..n], i, h);
    }
  }

  lemma RoundHolds(cfg: Config, before: Deliveries, p: Reports.Poll, x: Exchange, h: Happening)
    requires HappensIn(h, x) && h.Reported?
    ensures Delivery(h.report, h.ch) in RoundSteps(cfg, before, p, x)
  {
    var d := before + Pushes(x.meanwhile);
    if h in x.meanwhile {
      HappenedHolds(cfg, before, x.meanwhile, h);
    } else if h in x.asleep {
      HappenedHolds(cfg, d + Answered(Brought(x)), x.asleep, h);
    } else {
      var i :| 0 <= i < |Brought(x)| && h in Brought(x)[i].first;
      HandledHolds(cfg, d, Brought(x), i, h);
    }
  }

  lemma {:induction false} ScriptHolds(cfg: Config, before: Deliveries, past: Steps, script: seq<Exchange>, k: nat,
                                       h: Happening)
    requires k < |script| && HappensIn(h, script[k]) && h.Reported?
    ensures Delivery(h.report, h.ch) in ScriptSteps(cfg, before, past, script)
    decreases |script|
  {
    var n := |script| - 1;
    var done := ScriptSteps(cfg, before, past, script[..n]);
    LastRound(cfg, before, past, script);
    if k == n {
      RoundHolds(cfg, before + AllCommands(script[..n]), NextPoll(Reports.Run(past + done)), script[n], h);
    } else {
      ScriptHolds(cfg, before, past, script[..n], k, h);
    }
  }

  /** Every report a handler makes in any round of the loop is handed to `deliverReport`. */
  lemma EveryReportIsIssued(cfg: Config, before: Deliveries, past: Steps, script: seq<Exchange>, k: nat, h: Happening)
    requires k < |script| && HappensIn(h, script[k]) && h.Reported?
    ensures h.report in Reports.Run(past + ScriptSteps(cfg, before, past, script)).issued
  {
    ScriptHolds(cfg, before, past, script, k, h);
    IssuedExactly(past + ScriptSteps(cfg, before, past, script));
  }

  // ------------------------------------------------------ every command is processed

  lemma {:induction false} PushesHold(hs: seq<Happening>, h: Happening)
    requires h in hs && h.Pushed?
    ensures (h.incoming, h.now) in Pushes(hs)
  {
    var n := |hs| - 1;
    if h != hs[n] {
      PushesHold(hs[..n], h);
    }
  }

  lemma {:induction false} AnsweredHold(batch: seq<Arrival>, i: nat)
    requires i < |batch|
    ensures (batch[i].incoming, batch[i].now) in Answered(batch)
    ensures forall h | h in batch[i].first && h.Pushed? :: (h.incoming, h.now) in Answered(batch)
    decreases |batch|
  {
    var n := |batch| - 1;
    if i < n {
      AnsweredHold(batch[..n], i);
    } else {
      forall h | h in batch[n].first && h.Pushed? ensures (h.incoming, h.now) in Answered(batch) {
        PushesHold(batch[n].first, h);
      }
    }
  }

  lemma {:induction false} CarriedInScript(script: seq<Exchange>, k: nat, d: (Incoming, int))
    requires k < |script| && d in Carried(script[k])
    ensures d in AllCommands(script)
    decreases |script|
  {
    if k < |script| - 1 {
      CarriedInScript(script[..|script| - 1], k, d);
    }
  }

  /**
   Every command of every response is processed, also of one that is not ok, and of none that
   failed; and so is every command pushed over the socket while a round goes on.
   */
  lemma EveryCommandIsProcessed(script: seq<Exchange>, k: nat)
    requires k < |script|
    ensures !script[k].response.Failure? ==>
              forall i | 0 <= i < |script[k].commands| ::
                (script[k].commands[i].incoming, script[k].commands[i].now) in AllCommands(script)
    ensures forall h: Happening | h.Pushed? && (h in script[k].meanwhile || h in script[k].asleep) ::
              (h.incoming, h.now) in AllCommands(script)
    ensures script[k].response.Failure? ==>
              Carried(script[k]) == Pushes(script[k].meanwhile) + Pushes(script[k].asleep)
  {
    var x := script[k];
    if !x.response.Failure? {
      forall i | 0 <= i < |x.commands| ensures (x.commands[i].incoming, x.commands[i].now) in AllCommands(script) {
        AnsweredHold(x.commands, i);
        CarriedInScript(script, k, (x.commands[i].incoming, x.commands[i].now));
      }
    }
    forall h: Happening | h.Pushed? && (h in x.meanwhile || h in x.asleep)
      ensures (h.incoming, h.now) in AllCommands(script)
    {
      if h in x.meanwhile {
        PushesHold(x.meanwhile, h);
      } else {
        PushesHold(x.asleep, h);
      }
      CarriedInScript(script, k, (h.incoming, h.now));
    }
  }
}
