/**
 The receiver as it is written: the nonce cache, the report queue and the command pipeline,
 changed in place, each proved against the windows and the queue the theorems are about.
 */
module Receiver {
  import opened Options
  import opened Replay
  import Reports

  // ------------------------------------------------------------ nonce cache

  /** A list in arrival order and a map from each string to its list element. */
  class NonceCache {
    const cap: nat
    var ll: seq<string>
    var m: map<string, string>

    constructor (cap: nat)
      ensures this.cap == cap && Valid() && ll == []
    {
      this.cap, ll, m := cap, [], map[];
    }

    ghost predicate Valid()
      reads this
    {
      && |ll| <= cap
      && (forall i, j | 0 <= i < j < |ll| :: ll[i] != ll[j])
      && (forall x :: x in m <==> x in ll)
    }

    /** Records the nonce and reports whether it was already there. */
    method Seen(nonce: string) returns (seen: bool)
      requires Valid()
      modifies this
      ensures Valid() && seen == (nonce in old(ll))
      ensures ll == Remember(old(ll), nonce, cap)
    {
      if nonce in m {
        return true;
      }
      ll := ll + [nonce];
      m := m[nonce := nonce];
      if |ll| > cap {
        var front := ll[0];
        m := m - {front};
        ll := ll[1..];
        assert old(ll) + [nonce] == [front] + ll;
        forall x ensures x in m <==> x in ll {
          assert x in [front] + ll <==> x == front || x in ll;
        }
      }
      return false;
    }
  }

  // ----------------------------------------------------------- report queue

  /** The queue with its sent front removed: stop at the first report that was not sent. */
  function DropSent<T(==)>(queue: seq<T>, sent: set<T>): seq<T> {
    if queue != [] && queue[0] in sent then DropSent(queue[1..], sent) else queue
  }

  class ReportQueue<T(==)> {
    const cap: nat
    var ll: seq<T>

    constructor (cap: nat)
      ensures this.cap == cap && ll == []
    {
      this.cap, ll := cap, [];
    }

    method Enqueue(rep: T)
      requires cap > 0
      modifies this
      ensures ll == (if |old(ll)| >= cap then old(ll)[1..] else old(ll)) + [rep]
    {
      if |ll| >= cap {
        ll := ll[1..];
      }
      ll := ll + [rep];
    }

    method Snapshot() returns (out: seq<T>)
      ensures out == ll
    {
      out := [];
      for i := 0 to |ll|
        invariant out == ll[..i]
      {
        out := out + [ll[i]];
      }
    }

    method ClearSent(sent: seq<T>)
      modifies this
      ensures ll == DropSent(old(ll), set r | r in sent)
    {
      var marked: set<T> := {};
      for i := 0 to |sent|
        invariant marked == set r | r in sent[..i]
      {
        marked := marked + {sent[i]};
        assert sent[..i + 1] == sent[..i] + [sent[i]];
      }
      assert sent[..|sent|] == sent;
      while ll != []
        invariant DropSent(ll, marked) == DropSent(old(ll), marked)
        decreases |ll|
      {
        if ll[0] !in marked {
          return;
        }
        ll := ll[1..];
      }
    }
  }

  /** A report on the heap: two reports with the same text are still two reports. */
  datatype Entry = Entry(address: nat, report: Reports.Report)

  /** The queued reports, each with the address it was given when it was queued. */
  function Tagged(all: seq<Reports.Report>, lo: nat, hi: nat): (t: seq<Entry>)
    requires lo <= hi <= |all|
    ensures |t| == hi - lo && forall k | 0 <= k < |t| :: t[k] == Entry(lo + k, all[lo + k])
  {
    seq(hi - lo, k requires 0 <= k < hi - lo => Entry(lo + k, all[lo + k]))
  }

  lemma QueueAfterDelivery(s: Reports.State, r: Reports.Report, ch: Channel)
    requires s.front <= |s.all|
    ensures var s' := Reports.Step(s, Delivery(r, ch));
            var q := Tagged(s.all, s.front, |s.all|);
            if !(ch.connected && ch.accepted) || Reports.IsTerminal(r.status) then
              && |s'.all| == |s.all| + 1 && s'.front <= |s'.all|
              && Tagged(s'.all, s'.front, |s'.all|) ==
                   (if |q| >= Reports.MAX_QUEUED then q[1..] else q) + [Entry(|s.all|, r)]
            else s'.all == s.all && s'.front == s.front
  {
  }

  /**
   Clearing what a poll carried removes precisely the still-queued reports it carried, whatever
   was queued or pushed out while the poll was under way.
   */
  lemma {:induction false} ClearedExactly(all: seq<Reports.Report>, front: nat, lo: nat, hi: nat)
    requires lo <= front <= |all| && lo <= hi <= |all|
    ensures DropSent(Tagged(all, front, |all|), set e | e in Tagged(all, lo, hi)) ==
            Tagged(all, if front < hi then hi else front, |all|)
    decreases |all| - front
  {
    var q, sent := Tagged(all, front, |all|), set e | e in Tagged(all, lo, hi);
    if front < hi {
      assert Tagged(all, lo, hi)[front - lo] == q[0];
      assert q[1..] == Tagged(all, front + 1, |all|);
      ClearedExactly(all, front + 1, lo, hi);
    } else if front < |all| {
      assert forall e | e in sent :: e.address < hi;
      assert q[0].address == front;
    }
  }

  // --------------------------------------------------------------- receiver

  /** How the socket behaves for one report. */
  datatype Channel = Channel(connected: bool, accepted: bool, written: bool)

  /** What else goes on while the loop runs: handlers report, the socket pushes commands, messages arrive. */
  datatype Happening =
    | Reported(report: Reports.Report, ch: Channel)
    | Pushed(incoming: Incoming, now: int, ch: Channel)
    | Arrived(message: Reports.Action)

  /** How a poll ends: with an error, with ok:false, or with ok, which means that it was processed. */
  datatype Response = Failure(served: bool) | Refusal(served: bool) | Success

  /** A command of a response, and what happens before the loop gets to it. */
  datatype Arrival = Arrival(first: seq<Happening>, incoming: Incoming, now: int, ch: Channel)

  /** One poll as the outside world plays it. */
  datatype Exchange = Exchange(
    meanwhile: seq<Happening>, response: Response, commands: seq<Arrival>, asleep: seq<Happening>)

  type Deliveries = seq<(Incoming, int)>

  /** The pushed commands, in order. */
  function Pushes(hs: seq<Happening>): Deliveries {
    if hs == [] then []
    else
      var n := |hs| - 1;
      Pushes(hs[..n]) + if hs[n].Pushed? then [(hs[n].incoming, hs[n].now)] else []
  }

  /** The commands of a response, and those pushed in between. */
  function Answered(commands: seq<Arrival>): Deliveries {
    if commands == [] then []
    else
      var n := |commands| - 1;
      Answered(commands[..n]) + (Pushes(commands[n].first) + [(commands[n].incoming, commands[n].now)])
  }

  function Carried(x: Exchange): Deliveries {
    Pushes(x.meanwhile) + Answered(Brought(x)) + Pushes(x.asleep)
  }

  /** The commands of these rounds from both channels, in the order they are processed. */
  function AllCommands(script: seq<Exchange>): Deliveries {
    if script == [] then [] else AllCommands(script[..|script| - 1]) + Carried(script[|script| - 1])
  }

  lemma OneHappeningMore(cfg: Config, hs: seq<Happening>, k: nat, before: Deliveries)
    requires k < |hs|
    ensures before + Pushes(hs[..k + 1]) ==
            before + Pushes(hs[..k]) + if hs[k].Pushed? then [(hs[k].incoming, hs[k].now)] else []
    ensures Happened(cfg, before, hs[..k + 1]) ==
            Happened(cfg, before, hs[..k]) + Told(cfg, Replay.Run(cfg, before + Pushes(hs[..k])), hs[k])
  {
    assert hs[..k + 1][..k] == hs[..k];
  }

  lemma OneCommandMore(cfg: Config, batch: seq<Arrival>, k: nat, before: Deliveries, e: Steps, done: Steps)
    requires k < |batch|
    requires done == e + Handled(cfg, before, batch[..k]) + HandledOne(cfg, before + Answered(batch[..k]), batch[k])
    ensures before + Answered(batch[..k]) + Pushes(batch[k].first) + [(batch[k].incoming, batch[k].now)] ==
            before + Answered(batch[..k + 1])
    ensures done == e + Handled(cfg, before, batch[..k + 1])
  {
    var upTo := batch[..k + 1];
    assert upTo[..k] == batch[..k] && upTo[k] == batch[k];
    LastCommand(cfg, before, upTo);
    Regroup(before, Answered(batch[..k]), Pushes(batch[k].first), [(batch[k].incoming, batch[k].now)]);
    Regroup(Answered(batch[..k]), Pushes(batch[k].first), [(batch[k].incoming, batch[k].now)], []);
    Regroup(e, Handled(cfg, before, batch[..k]), HandledOne(cfg, before + Answered(batch[..k]), batch[k]), []);
  }

  lemma LastCommand(cfg: Config, before: Deliveries, batch: seq<Arrival>)
    requires batch != []
    ensures var n := |batch| - 1;
            && Answered(batch) ==
               Answered(batch[..n]) + (Pushes(batch[n].first) + [(batch[n].incoming, batch[n].now)])
            && Handled(cfg, before, batch) ==
               Handled(cfg, before, batch[..n]) + HandledOne(cfg, before + Answered(batch[..n]), batch[n])
  {
  }

  lemma Regroup<T>(a: seq<T>, b: seq<T>, c: seq<T>, d: seq<T>)
    ensures a + b + c == a + (b + c) && a + b + c + d == a + (b + c + d)
  {
  }

  lemma RoundTogether(cfg: Config, x: Exchange, p: Reports.Poll, before: Deliveries,
                      e: Steps, polled: Steps, handled: Steps, done: Steps)
    requires polled == e + Polled(cfg, before, p, x.meanwhile, x.response)
    requires handled == polled + Handled(cfg, before + Pushes(x.meanwhile), Brought(x))
    requires done == handled + Happened(cfg, before + Pushes(x.meanwhile) + Answered(Brought(x)), x.asleep)
    ensures done == e + RoundSteps(cfg, before, p, x)
    ensures before + Pushes(x.meanwhile) + Answered(Brought(x)) + Pushes(x.asleep) == before + Carried(x)
  {
    Regroup(e, Polled(cfg, before, p, x.meanwhile, x.response),
            Handled(cfg, before + Pushes(x.meanwhile), Brought(x)),
            Happened(cfg, before + Pushes(x.meanwhile) + Answered(Brought(x)), x.asleep));
    Regroup(before, Pushes(x.meanwhile), Answered(Brought(x)), Pushes(x.asleep));
  }

  lemma OneRoundMore(cfg: Config, script: seq<Exchange>, k: nat, before: Deliveries, past: Steps, e: Steps, done: Steps)
    requires k < |script| && e == past + ScriptSteps(cfg, before, past, script[..k])
    requires done == e + RoundSteps(cfg, before + AllCommands(script[..k]), NextPoll(Reports.Run(e)), script[k])
    ensures before + AllCommands(script[..k]) + Carried(script[k]) == before + AllCommands(script[..k + 1])
    ensures done == past + ScriptSteps(cfg, before, past, script[..k + 1])
  {
    var upTo := script[..k + 1];
    assert upTo[..k] == script[..k] && upTo[k] == script[k];
    Regroup(before, AllCommands(script[..k]), Carried(script[k]), []);
    LastRound(cfg, before, past, upTo);
    Regroup(past, ScriptSteps(cfg, before, past, script[..k]),
            RoundSteps(cfg, before + AllCommands(script[..k]), NextPoll(Reports.Run(e)), script[k]), []);
  }

  lemma LastRound(cfg: Config, before: Deliveries, past: Steps, script: seq<Exchange>)
    requires script != []
    ensures var n := |script| - 1;
            var done := ScriptSteps(cfg, before, past, script[..n]);
            ScriptSteps(cfg, before, past, script) ==
            done + RoundSteps(cfg, before + AllCommands(script[..n]), NextPoll(Reports.Run(past + done)), script[n])
  {
  }

  /** What no delivery and no arriving message takes back, and what they leave alone. */
  ghost predicate Continues(s: Reports.State, s': Reports.State) {
    && s.all <= s'.all && s.front <= s'.front && s.served <= s'.served
    && s'.polling == s.polling && s'.requests == s.requests && s'.accepted == s.accepted
  }

  /** What one poll leaves behind: its request, and exactly after an ok response a confirmed and cleared queue. */
  ghost predicate PollDone(s: Reports.State, s': Reports.State, ok: bool) {
    && s.all <= s'.all && s.front <= s'.front && s'.requests == s.requests + {NextPoll(s)}
    && s'.accepted == s.accepted + (if ok then {NextPoll(s)} else {})
    && (ok ==> s'.front >= |s.all|)
  }

  lemma DeliveryContinues(s: Reports.State, r: Reports.Report, ch: Channel)
    ensures Continues(s, Reports.Step(s, Delivery(r, ch)))
  {
  }

  /** The report that answers a command before its handler runs. */
  function Answer(cfg: Config, incoming: Incoming, v: Verdict, now: int): Reports.Report
    requires v != Duplicate
  {
    match v
    case Refused(why) => Reports.Report(incoming.cmd.id, Reports.RefusedStatus, cfg.text(why), "", 0, now / SECOND)
    case Dispatched => Reports.Report(incoming.cmd.id, Reports.Received, "", "", 0, now / SECOND)
  }

  /** What a verdict is answered with, in full: a refusal says why, a dispatch is received, a duplicate is dropped. */
  function AnswerTo(cfg: Config, incoming: Incoming, v: Verdict, now: int): (reports: seq<Reports.Report>)
    ensures forall r | r in reports ::
              && r.commandId == incoming.cmd.id && r.timestamp == now / 1_000_000_000
              && (r.status == Reports.Received <==> v == Dispatched)
              && (r.status == Reports.RefusedStatus <==> v.Refused?)
              && r.message == (if v.Refused? then cfg.text(v.why) else "")
    ensures |reports| == if v == Duplicate then 0 else 1
  {
    if v == Duplicate then [] else [Answer(cfg, incoming, v, now)]
  }

  function Delivery(r: Reports.Report, ch: Channel): Reports.Action {
    Reports.Deliver(r, ch.connected, ch.accepted, ch.written)
  }

  // ------------------------------------------------ what the receiver does, as steps

  type Steps = seq<Reports.Action>

  /** A command is answered with one report unless it is a duplicate. */
  function Replied(cfg: Config, c: State, incoming: Incoming, now: int, ch: Channel): Steps {
    var v := Judge(cfg, c, incoming, now);
    if v == Duplicate then [] else [Delivery(Answer(cfg, incoming, v, now), ch)]
  }

  function Told(cfg: Config, c: State, h: Happening): Steps {
    match h
    case Reported(rep, ch) => [Delivery(rep, ch)]
    case Pushed(incoming, now, ch) => Replied(cfg, c, incoming, now, ch)
    case Arrived(message) => if message.FrameArrives? || message.RequestArrives? then [message] else []
  }

  /** What happenings do to the reports, after the deliveries in `before`. */
  function Happened(cfg: Config, before: Deliveries, hs: seq<Happening>): Steps {
    if hs == [] then []
    else
      var n := |hs| - 1;
      Happened(cfg, before, hs[..n]) + Told(cfg, Replay.Run(cfg, before + Pushes(hs[..n])), hs[n])
  }

  /** One command of a response: what happens before the loop gets to it, and its answer. */
  function HandledOne(cfg: Config, before: Deliveries, a: Arrival): Steps {
    Happened(cfg, before, a.first)
    + Replied(cfg, Replay.Run(cfg, before + Pushes(a.first)), a.incoming, a.now, a.ch)
  }

  function Handled(cfg: Config, before: Deliveries, batch: seq<Arrival>): Steps {
    if batch == [] then []
    else
      var n := |batch| - 1;
      Handled(cfg, before, batch[..n]) + HandledOne(cfg, before + Answered(batch[..n]), batch[n])
  }

  /** A poll that carries `p`: it is sent, reports and pushes come in meanwhile, and it returns. */
  function Polled(cfg: Config, before: Deliveries, p: Reports.Poll, meanwhile: seq<Happening>, response: Response)
    : Steps
  {
    [Reports.PollStarts] + Happened(cfg, before, meanwhile)
    + (if response.Success? || response.served then [Reports.RequestArrives(p)] else [])
    + [Reports.PollReturns(response.Success?)]
  }

  /** The commands a response brings: an error brings none. */
  function Brought(x: Exchange): seq<Arrival> {
    if x.response.Failure? then [] else x.commands
  }

  function RoundSteps(cfg: Config, before: Deliveries, p: Reports.Poll, x: Exchange): Steps {
    var polled := before + Pushes(x.meanwhile);
    Polled(cfg, before, p, x.meanwhile, x.response)
    + Handled(cfg, polled, Brought(x))
    + Happened(cfg, polled + Answered(Brought(x)), x.asleep)
  }

  /** The poll that would start now carries the whole queue. */
  function NextPoll(s: Reports.State): Reports.Poll {
    Reports.Poll(s.front, |s.all|)
  }

  /** What these rounds do to the reports, after the steps in `past`. */
  function ScriptSteps(cfg: Config, before: Deliveries, past: Steps, script: seq<Exchange>): Steps {
    if script == [] then []
    else
      var n := |script| - 1;
      var done := ScriptSteps(cfg, before, past, script[..n]);
      done + RoundSteps(cfg, before + AllCommands(script[..n]), NextPoll(Reports.Run(past + done)), script[n])
  }

  lemma PolledTogether(e: Steps, sent: Steps, told: Steps, done: Steps, cfg: Config, before: Deliveries,
                       p: Reports.Poll, meanwhile: seq<Happening>, response: Response)
    requires sent == e + [Reports.PollStarts] && told == sent + Happened(cfg, before, meanwhile)
    requires done == told + (if response.Success? || response.served then [Reports.RequestArrives(p)] else [])
                     + [Reports.PollReturns(response.Success?)]
    ensures done == e + Polled(cfg, before, p, meanwhile, response)
  {
  }

  /** What one poll does, from the steps it is made of. */
  lemma PollIsDone(s: Reports.State, started: Reports.State, late: Reports.State, last: Reports.State,
                   s': Reports.State, ok: bool, served: bool)
    requires s.polling.None? && started == Reports.Step(s, Reports.PollStarts) && Continues(started, late)
    requires Reports.Accounted(late) && (ok ==> served)
    requires last == if served then Reports.Step(late, Reports.RequestArrives(NextPoll(s))) else late
    requires s' == Reports.Step(last, Reports.PollReturns(ok))
    ensures PollDone(s, s', ok) && s'.polling.None?
  {
  }

  /** Looking at a whole history; the methods below only need its last step. */
  ghost predicate Whole(events: seq<Reports.Action>) {
    true
  }

  /** This is where the report protocol stands after these events. */
  ghost predicate Ran(events: seq<Reports.Action>, s: Reports.State) {
    forall e {:trigger Whole(e)} | Whole(e) && e == events :: s == Reports.Run(e)
  }

  lemma RanMore(events: seq<Reports.Action>, s: Reports.State, a: Reports.Action)
    requires Ran(events, s)
    ensures Ran(events + [a], Reports.Step(s, a))
  {
    assert Whole(events);
    assert (events + [a])[..|events|] == events;
  }

  class Receiver {
    const cfg: Config
    const ids: NonceCache
    const nonces: NonceCache
    const queue: ReportQueue<Entry>
    var addresses: nat

    ghost var commands: State
    ghost var reports: Reports.State
    ghost var events: seq<Reports.Action>

    constructor (cfg: Config)
      ensures Valid() && fresh(ids) && fresh(nonces) && fresh(queue)
      ensures commands == INITIAL && reports == Reports.INITIAL && events == []
    {
      this.cfg := cfg;
      ids := new NonceCache(MAX_IDS);
      nonces := new NonceCache(MAX_NONCES);
      queue := new ReportQueue<Entry>(Reports.MAX_QUEUED);
      addresses, commands, reports, events := 0, INITIAL, Reports.INITIAL, [];
    }

    ghost predicate Valid()
      reads this, ids, nonces, queue
    {
      && ids != nonces && ids.Valid() && nonces.Valid()
      && ids.cap == MAX_IDS && nonces.cap == MAX_NONCES && queue.cap == Reports.MAX_QUEUED
      && ids.ll == commands.ids && nonces.ll == commands.nonces
      && Reports.Accounted(reports) && Ran(events, reports)
      && addresses == |reports.all|
      && queue.ll == Tagged(reports.all, reports.front, |reports.all|)
    }

    /** One step of the report protocol, as far as the history goes. */
    ghost method Happen(a: Reports.Action)
      requires Reports.Accounted(reports) && Ran(events, reports)
      modifies this`reports, this`events
      ensures Reports.Accounted(reports) && Ran(events, reports)
      ensures reports == Reports.Step(old(reports), a) && events == old(events) + [a]
    {
      Reports.StepAccounts(reports, a);
      RanMore(events, reports, a);
      reports, events := Reports.Step(reports, a), events + [a];
    }

    method DeliverReport(rep: Reports.Report, ch: Channel)
      requires Valid()
      modifies this`addresses, this`reports, this`events, queue
      ensures Valid()
      ensures events == old(events) + [Delivery(rep, ch)] && reports == Reports.Step(old(reports), Delivery(rep, ch))
    {
      var sent := ch.connected && ch.accepted;
      if !sent || Reports.IsTerminal(rep.status) {
        queue.Enqueue(Entry(addresses, rep));
        addresses := addresses + 1;
      }
      QueueAfterDelivery(reports, rep, ch);
      Happen(Delivery(rep, ch));
    }

    /** The refusal checks, in order; only a command that passes the others has its nonce recorded. */
    method Validate(incoming: Incoming, now: int) returns (v: Verdict)
      requires nonces.Valid() && nonces.cap == MAX_NONCES
      modifies nonces
      ensures nonces.Valid()
      ensures v == (var w := Screen(cfg, incoming, now);
                    if w == Dispatched && incoming.cmd.nonce in old(nonces.ll) then Refused(ReplayedNonce) else w)
      ensures nonces.ll == if v == Dispatched then Remember(old(nonces.ll), incoming.cmd.nonce,
          MAX_NONCES) else old(nonces.ll)
    {
      if !cfg.writerEnabled { return Refused(ReadOnly); }
      if !cfg.keyReadable { return Refused(BadKey); }
      if !cfg.verifies(incoming) { return Refused(BadSignature); }
      var skew := now - incoming.cmd.timestamp * SECOND;
      if skew > MAX_CLOCK_SKEW || skew < -MAX_CLOCK_SKEW { return Refused(Skewed); }
      var seen := nonces.Seen(incoming.cmd.nonce);
      if seen { return Refused(ReplayedNonce); }
      return Dispatched;
    }

    /** One command from either channel: dedupe, validate, report, dispatch. */
    method Process(incoming: Incoming, now: int, ch: Channel) returns (v: Verdict)
      requires Valid()
      modifies this`addresses, this`commands, this`reports, this`events, ids, nonces, queue
      ensures Valid() && Continues(old(reports), reports)
      ensures v == Judge(cfg, old(commands), incoming, now)
      ensures commands == Replay.Process(cfg, old(commands), incoming, now)
      ensures v == Duplicate ==> reports == old(reports)
      ensures v != Duplicate ==>
                reports == Reports.Step(old(reports), Delivery(Answer(cfg, incoming, v, now), ch))
      ensures events == old(events) + Replied(cfg, old(commands), incoming, now, ch)
      ensures v == Dispatched <==>
                && incoming.cmd.id !in old(ids.ll) && incoming.cmd.nonce !in old(nonces.ll)
                && cfg.writerEnabled && cfg.keyReadable && cfg.verifies(incoming)
                && -300_000_000_000 <= now - incoming.cmd.timestamp * 1_000_000_000 <= 300_000_000_000
      ensures reports.issued == old(reports.issued) + AnswerTo(cfg, incoming, v, now)
    {
      var duplicate := ids.Seen(incoming.cmd.id);
      if duplicate {
        return Duplicate;
      }
      v := Validate(incoming, now);
      commands := Replay.Process(cfg, commands, incoming, now);
      DeliveryContinues(reports, Answer(cfg, incoming, v, now), ch);
      DeliverReport(Answer(cfg, incoming, v, now), ch);
    }

    /**
     One poll round trip: the request carries a snapshot of the queue, reports and pushed commands
     come in meanwhile, and an ok response clears what was sent.
     */
    method Poll(meanwhile: seq<Happening>, response: Response, ghost before: Deliveries)
      returns (ghost delivered: Deliveries)
      requires Valid() && reports.polling.None? && commands == Replay.Run(cfg, before)
      modifies this`addresses, this`commands, this`reports, this`events, ids, nonces, queue
      ensures Valid() && reports.polling.None?
      ensures events == old(events) + Polled(cfg, before, NextPoll(old(reports)), meanwhile, response)
      ensures delivered == before + Pushes(meanwhile) && commands == Replay.Run(cfg, delivered)
      ensures PollDone(old(reports), reports, response.Success?)
    {
      ghost var p := NextPoll(reports);
      var carried := queue.Snapshot();
      Advance(Reports.PollStarts);
      ghost var started, sent := reports, events;
      delivered := GoOn(meanwhile, before);
      ghost var late, told := reports, events;
      if response.Success? || response.served {
        Advance(Reports.RequestArrives(p));
      }
      ghost var last := reports;
      assert carried == Tagged(reports.all, p.lo, p.hi);
      FinishPoll(carried, p, response.Success?);
      PolledTogether(old(events), sent, told, events, cfg, before, p, meanwhile, response);
      PollIsDone(old(reports), started, late, last, reports, response.Success?, response.Success? || response.served);
    }

    /** Handlers and the socket at work. */
    method GoOn(hs: seq<Happening>, ghost before: Deliveries) returns (ghost delivered: Deliveries)
      requires Valid() && commands == Replay.Run(cfg, before)
      modifies this`addresses, this`commands, this`reports, this`events, ids, nonces, queue
      ensures Valid() && Continues(old(reports), reports)
      ensures events == old(events) + Happened(cfg, before, hs)
      ensures delivered == before + Pushes(hs) && commands == Replay.Run(cfg, delivered)
    {
      delivered := before;
      for k := 0 to |hs|
        invariant Valid() && Continues(old(reports), reports)
        invariant events == old(events) + Happened(cfg, before, hs[..k])
        invariant delivered == before + Pushes(hs[..k]) && commands == Replay.Run(cfg, delivered)
      {
        OneHappeningMore(cfg, hs, k, before);
        Meet(hs[k], delivered);
        delivered := before + Pushes(hs[..k + 1]);
      }
      assert hs[..|hs|] == hs;
    }

    method Meet(h: Happening, ghost before: Deliveries)
      requires Valid() && commands == Replay.Run(cfg, before)
      modifies this`addresses, this`commands, this`reports, this`events, ids, nonces, queue
      ensures Valid() && Continues(old(reports), reports)
      ensures events == old(events) + Told(cfg, Replay.Run(cfg, before), h)
      ensures commands == Replay.Run(cfg, before + if h.Pushed? then [(h.incoming, h.now)] else [])
    {
      match h {
        case Reported(rep, ch) =>
          DeliveryContinues(reports, rep, ch);
          DeliverReport(rep, ch);
          assert before + [] == before;
        case Pushed(incoming, now, ch) =>
          Handle(incoming, now, ch, before);
        case Arrived(message) =>
          if message.FrameArrives? || message.RequestArrives? {
            Advance(message);
          }
          assert before + [] == before;
      }
    }

    /** A poll's response: what it carried is cleared if the response is ok. */
    method FinishPoll(carried: seq<Entry>, ghost p: Reports.Poll, ok: bool)
      requires Valid() && reports.polling == Some(p) && (ok ==> p in reports.served)
      requires p.lo <= p.hi <= |reports.all| && carried == Tagged(reports.all, p.lo, p.hi)
      modifies this`reports, this`events, queue
      ensures Valid() && events == old(events) + [Reports.PollReturns(ok)]
      ensures reports == Reports.Step(old(reports), Reports.PollReturns(ok))
    {
      if ok {
        ClearedExactly(reports.all, reports.front, p.lo, p.hi);
        queue.ClearSent(carried);
      }
      Happen(Reports.PollReturns(ok));
    }

    /** One more command of a run. */
    method Handle(incoming: Incoming, now: int, ch: Channel, ghost before: Deliveries)
      requires Valid() && commands == Replay.Run(cfg, before)
      modifies this`addresses, this`commands, this`reports, this`events, ids, nonces, queue
      ensures Valid() && Continues(old(reports), reports)
      ensures events == old(events) + Replied(cfg, Replay.Run(cfg, before), incoming, now, ch)
      ensures commands == Replay.Run(cfg, before + [(incoming, now)])
    {
      assert (before + [(incoming, now)])[..|before|] == before;
      var _ := Process(incoming, now, ch);
    }

    /** One command of a response, and what happens before the loop gets to it. */
    method ProcessNext(a: Arrival, ghost before: Deliveries)
      requires Valid() && commands == Replay.Run(cfg, before)
      modifies this`addresses, this`commands, this`reports, this`events, ids, nonces, queue
      ensures Valid() && Continues(old(reports), reports)
      ensures events == old(events) + HandledOne(cfg, before, a)
      ensures commands == Replay.Run(cfg, before + Pushes(a.first) + [(a.incoming, a.now)])
    {
      ghost var d := GoOn(a.first, before);
      Handle(a.incoming, a.now, a.ch, d);
      Regroup(old(events), Happened(cfg, before, a.first),
              Replied(cfg, Replay.Run(cfg, d), a.incoming, a.now, a.ch), []);
    }

    /** The commands of one response, in order. */
    method ProcessAll(batch: seq<Arrival>, ghost before: Deliveries) returns (ghost delivered: Deliveries)
      requires Valid() && commands == Replay.Run(cfg, before)
      modifies this`addresses, this`commands, this`reports, this`events, ids, nonces, queue
      ensures Valid() && Continues(old(reports), reports)
      ensures events == old(events) + Handled(cfg, before, batch)
      ensures delivered == before + Answered(batch) && commands == Replay.Run(cfg, delivered)
    {
      delivered := before;
      for k := 0 to |batch|
        invariant Valid() && Continues(old(reports), reports)
        invariant events == old(events) + Handled(cfg, before, batch[..k])
        invariant delivered == before + Answered(batch[..k]) && commands == Replay.Run(cfg, delivered)
      {
        ProcessNext(batch[k], delivered);
        OneCommandMore(cfg, batch, k, before, old(events), events);
        delivered := before + Answered(batch[..k + 1]);
      }
      assert batch[..|batch|] == batch;
    }

    /**
     One round of the poll loop. Commands from the response go through the same pipeline as
     pushed ones; an ok:false response still carries commands, an error carries none.
     */
    method Round(x: Exchange, ghost before: Deliveries) returns (ghost delivered: Deliveries)
      requires Valid() && reports.polling.None? && commands == Replay.Run(cfg, before)
      modifies this`addresses, this`commands, this`reports, this`events, ids, nonces, queue
      ensures Valid() && reports.polling.None?
      ensures events == old(events) + RoundSteps(cfg, before, NextPoll(old(reports)), x)
      ensures delivered == before + Carried(x) && commands == Replay.Run(cfg, delivered)
      ensures PollDone(old(reports), reports, x.response.Success?)
    {
      delivered := Poll(x.meanwhile, x.response, before);
      ghost var polled := events;
      delivered := ProcessAll(Brought(x), delivered);
      ghost var handled := events;
      delivered := GoOn(x.asleep, delivered);
      RoundTogether(cfg, x, NextPoll(old(reports)), before, old(events), polled, handled, events);
    }

    /** The poll loop, until the context is done. */
    method Run(script: seq<Exchange>, ghost before: Deliveries) returns (ghost delivered: Deliveries)
      requires Valid() && reports.polling.None? && commands == Replay.Run(cfg, before)
      modifies this`addresses, this`commands, this`reports, this`events, ids, nonces, queue
      ensures Valid() && reports.polling.None?
      ensures events == old(events) + ScriptSteps(cfg, before, old(events), script)
      ensures delivered == before + AllCommands(script) && commands == Replay.Run(cfg, delivered)
      ensures reports == Reports.Run(events)
      ensures forall d | d in commands.log :: Passes(cfg, d.incoming, d.now)
    {
      delivered := before;
      for round := 0 to |script|
        invariant Valid() && reports.polling.None?
        invariant events == old(events) + ScriptSteps(cfg, before, old(events), script[..round])
        invariant delivered == before + AllCommands(script[..round]) && commands == Replay.Run(cfg, delivered)
      {
        ghost var e := events;
        assert Whole(e);
        delivered := Round(script[round], delivered);
        OneRoundMore(cfg, script, round, before, old(events), e, events);
      }
      assert script[..|script|] == script;
      assert Whole(events);
      RunKeeps(cfg, delivered);
    }

    /** A step of the rest of the world that leaves the queue alone. */
    ghost method Advance(a: Reports.Action)
      requires Valid() && (a.PollStarts? || a.RequestArrives? || a.FrameArrives?)
      modifies this`reports, this`events
      ensures Valid() && events == old(events) + [a] && reports == Reports.Step(old(reports), a)
    {
      Happen(a);
    }
  }
}
