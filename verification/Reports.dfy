/**
 Execution reports on their way to the control plane: sent over the socket when it is up,
 queued for the next poll otherwise, terminal ones always queued; the bounded queue is cleared
 by a successful poll. Requests and socket frames may be lost, delayed, repeated and reordered.
 */
module Reports {
  import opened Options

  const MAX_QUEUED := 1_000

  datatype Status =
    | Received | Validating | DryRun | Applying | Progress
    | Succeeded | Failed | RefusedStatus

  predicate IsTerminal(s: Status) {
    s == Succeeded || s == Failed || s == RefusedStatus
  }

  datatype Report = Report(commandId: string, status: Status, message: string, diff: string, progress: int,
      timestamp: int)

  // ------------------------------------------------------- the control plane

  datatype CommandStatus = Running | Done(status: Status)

  type Board = map<string, CommandStatus>

  predicate Settled(b: Board, id: string) {
    id in b && b[id].Done?
  }

  /** A report advances the command's status; terminal statuses are never overwritten. */
  function Advance(b: Board, r: Report): Board {
    if Settled(b, r.commandId) then b
    else b[r.commandId := if IsTerminal(r.status) then Done(r.status) else Running]
  }

  function AdvanceAll(b: Board, rs: seq<Report>): Board {
    if rs == [] then b else Advance(AdvanceAll(b, rs[..|rs| - 1]), rs[|rs| - 1])
  }

  // ------------------------------------------------------------ the protocol

  /** A poll request carries the queued reports at positions lo..hi of everything ever queued. */
  datatype Poll = Poll(lo: nat, hi: nat)

  /**
   The queue is `all[front..]`: reports enter at the back, and both overflow and a successful
   poll only ever remove from the front.
   */
  datatype State = State(
    all: seq<Report>,
    front: nat,
    polling: Option<Poll>,
    board: Board,
    issued: seq<Report>,   // everything handed to deliverReport
    frames: seq<Report>,   // everything ever written to the socket
    requests: set<Poll>,   // every poll request ever sent
    served: set<Poll>,     // those the control plane has processed
    accepted: set<Poll>,   // those whose poll returned ok
    dropped: set<nat>)     // positions pushed out by overflow

  const INITIAL := State([], 0, None, map[], [], [], {}, {}, {}, {})

  datatype Action =
    | Deliver(report: Report, connected: bool, accepted: bool, written: bool)
    | FrameArrives(i: nat)     // a socket frame reaches the control plane, any number of times
    | PollStarts
    | RequestArrives(p: Poll)  // so does a poll request
    | PollReturns(ok: bool)    // ok: a response with ok set; otherwise an error or ok:false

  function Queue(s: State): seq<Report>
    requires s.front <= |s.all|
  {
    s.all[s.front..]
  }

  predicate Enabled(s: State, a: Action) {
    match a
    case Deliver(_, _, _, _) => true
    case FrameArrives(i) => i < |s.frames|
    case PollStarts => s.polling.None?
    case RequestArrives(p) => p in s.requests && p.lo <= p.hi <= |s.all|
    case PollReturns(ok) => s.polling.Some? && (ok ==> s.polling.value in s.served)
  }

  /** The report at this position was carried by a poll that returned ok. */
  predicate Confirmed(s: State, i: nat) {
    exists p | p in s.accepted :: p.lo <= i < p.hi
  }

  /** `deliverReport`: queue unless the socket took it, and queue terminal reports in any case. */
  predicate Queued(r: Report, connected: bool, accepted: bool) {
    !(connected && accepted) || IsTerminal(r.status)
  }

  function Enqueue(s: State, r: Report): State {
    var full := |s.all| - s.front >= MAX_QUEUED;
    s.(all := s.all + [r],
       front := if full then s.front + 1 else s.front,
       dropped := if full then s.dropped + {s.front} else s.dropped)
  }

  function Step(s: State, a: Action): State {
    if !Enabled(s, a) then s else
    match a
    case Deliver(r, connected, accepted, written) =>
      var s' := s.(issued := s.issued + [r],
                   frames := if connected && written then s.frames + [r] else s.frames);
      if Queued(r, connected, accepted) then Enqueue(s', r) else s'
    case FrameArrives(i) => s.(board := Advance(s.board, s.frames[i]))
    case PollStarts =>
      var p := Poll(s.front, |s.all|);
      s.(polling := Some(p), requests := s.requests + {p})
    case RequestArrives(p) =>
      s.(board := AdvanceAll(s.board, s.all[p.lo..p.hi]), served := s.served + {p})
    case PollReturns(ok) =>
      var p := s.polling.value;
      if ok then
        s.(polling := None, front := if s.front < p.hi then p.hi else s.front, accepted := s.accepted + {p})
      else s.(polling := None)
  }

  function Run(actions: seq<Action>): State {
    if actions == [] then INITIAL else Step(Run(actions[..|actions| - 1]), actions[|actions| - 1])
  }

  // ------------------------------------------------------ settled is for good

  lemma {:induction false} AdvanceAllSettles(b: Board, rs: seq<Report>, id: string)
    ensures Settled(b, id) ==> Settled(AdvanceAll(b, rs), id) && AdvanceAll(b, rs)[id] == b[id]
    ensures (exists r | r in rs :: r.commandId == id && IsTerminal(r.status)) ==> Settled(AdvanceAll(b, rs), id)
    ensures Settled(AdvanceAll(b, rs), id) && !Settled(b, id) ==>
              exists r | r in rs :: r.commandId == id && IsTerminal(r.status) && AdvanceAll(b, rs)[id] == Done(r.status)
  {
    if rs != [] {
      var init, last := rs[..|rs| - 1], rs[|rs| - 1];
      assert rs == init + [last];
      AdvanceAllSettles(b, init, id);
    }
  }

  /** Over every continuation, a terminal status never changes. */
  lemma StepKeepsSettled(s: State, a: Action, id: string)
    requires Settled(s.board, id)
    ensures Settled(Step(s, a).board, id) && Step(s, a).board[id] == s.board[id]
  {
    if Enabled(s, a) && a.RequestArrives? {
      AdvanceAllSettles(s.board, s.all[a.p.lo..a.p.hi], id);
    }
  }

  lemma {:induction false} SettledForGood(actions: seq<Action>, k: nat, id: string)
    requires k <= |actions| && Settled(Run(actions[..k]).board, id)
    ensures Settled(Run(actions).board, id) && Run(actions).board[id] == Run(actions[..k]).board[id]
    decreases |actions|
  {
    if k == |actions| {
      assert actions[..k] == actions;
    } else {
      var n := |actions| - 1;
      assert actions[..n][..k] == actions[..k];
      SettledForGood(actions[..n], k, id);
      StepKeepsSettled(Run(actions[..n]), actions[n], id);
    }
  }

  // -------------------------------------------------------------- invariants

  /** The queue bookkeeping: nothing leaves the front except by a successful poll or by overflow. */
  ghost predicate Accounted(s: State) {
    && s.front <= |s.all| <= s.front + MAX_QUEUED
    && (s.polling.Some? ==> s.polling.value in s.requests && s.polling.value.lo <= s.front)
    && (forall p | p in s.requests :: p.lo <= p.hi <= |s.all|)
    && s.accepted <= s.served <= s.requests
    && (forall i | 0 <= i < s.front :: Confirmed(s, i) || i in s.dropped)
    && (forall i | i in s.dropped :: i < s.front && |s.all| >= i + 1 + MAX_QUEUED)
  }

  lemma StepAccounts(s: State, a: Action)
    requires Accounted(s)
    ensures Accounted(Step(s, a))
  {
    var s' := Step(s, a);
    if Enabled(s, a) {
      forall i | 0 <= i < s'.front ensures Confirmed(s', i) || i in s'.dropped {
        if i < s.front && Confirmed(s, i) {
          var p :| p in s.accepted && p.lo <= i < p.hi;
          assert p in s'.accepted;
        } else if a == PollReturns(true) && i >= s.front {
          assert s.polling.value in s'.accepted;
        }
      }
    }
  }

  /** Terminal reports: what was processed is settled, they are always queued, and nothing is made up. */
  ghost predicate Truthful(s: State) {
    && (forall p, i | p in s.served && p.lo <= i < p.hi && i < |s.all| && IsTerminal(s.all[i].status) ::
          Settled(s.board, s.all[i].commandId))
    && (forall r | r in s.all :: r in s.issued)
    && (forall r | r in s.frames :: r in s.issued)
    && (forall r | r in s.issued && IsTerminal(r.status) :: r in s.all)
    && (forall id | Settled(s.board, id) :: Reported(s, id, s.board[id].status))
  }

  predicate Reported(s: State, id: string, status: Status) {
    exists r | r in s.issued :: r.commandId == id && r.status == status && IsTerminal(status)
  }

  lemma DeliverTruthful(s: State, a: Action)
    requires Accounted(s) && Truthful(s) && a.Deliver?
    ensures Truthful(Step(s, a))
  {
    var s' := Step(s, a);
    forall id | Settled(s'.board, id) ensures Reported(s', id, s'.board[id].status) {
      var r :| r in s.issued && r.commandId == id && r.status == s.board[id].status && IsTerminal(r.status);
      assert r in s'.issued;
    }
    forall p, i | p in s'.served && p.lo <= i < p.hi && i < |s'.all| && IsTerminal(s'.all[i].status)
      ensures Settled(s'.board, s'.all[i].commandId)
    {
      assert p in s.served && s'.all[i] == s.all[i];
    }
  }

  lemma RequestTruthful(s: State, p: Poll)
    requires Accounted(s) && Truthful(s) && Enabled(s, RequestArrives(p))
    ensures Truthful(Step(s, RequestArrives(p)))
  {
    var s', rs := Step(s, RequestArrives(p)), s.all[p.lo..p.hi];
    forall q, i | q in s'.served && q.lo <= i < q.hi && i < |s'.all| && IsTerminal(s'.all[i].status)
      ensures Settled(s'.board, s'.all[i].commandId)
    {
      AdvanceAllSettles(s.board, rs, s.all[i].commandId);
      if q == p {
        assert rs[i - p.lo] == s.all[i];
      }
    }
    forall id | Settled(s'.board, id) ensures Reported(s', id, s'.board[id].status) {
      AdvanceAllSettles(s.board, rs, id);
      if Settled(s.board, id) {
        assert Reported(s, id, s.board[id].status);
      }
    }
  }

  lemma FrameTruthful(s: State, i: nat)
    requires Accounted(s) && Truthful(s) && Enabled(s, FrameArrives(i))
    ensures Truthful(Step(s, FrameArrives(i)))
  {
    var s', r := Step(s, FrameArrives(i)), s.frames[i];
    forall q, k | q in s'.served && q.lo <= k < q.hi && k < |s'.all| && IsTerminal(s'.all[k].status)
      ensures Settled(s'.board, s'.all[k].commandId)
    {
      StepKeepsSettled(s, FrameArrives(i), s.all[k].commandId);
    }
    forall id | Settled(s'.board, id) ensures Reported(s', id, s'.board[id].status) {
      if Settled(s.board, id) {
        StepKeepsSettled(s, FrameArrives(i), id);
        assert Reported(s, id, s.board[id].status);
      } else {
        assert r in s.issued && r.commandId == id;
      }
    }
  }

  lemma StepTruthful(s: State, a: Action)
    requires Accounted(s) && Truthful(s)
    ensures Truthful(Step(s, a))
  {
    if Enabled(s, a) {
      match a
      case Deliver(_, _, _, _) => DeliverTruthful(s, a);
      case FrameArrives(i) => FrameTruthful(s, i);
      case RequestArrives(p) => RequestTruthful(s, p);
      case _ =>
        var s' := Step(s, a);
        forall id | Settled(s'.board, id) ensures Reported(s', id, s'.board[id].status) {
          assert Reported(s, id, s.board[id].status);
        }
    }
  }

  lemma {:induction false} RunKeeps(actions: seq<Action>)
    ensures Accounted(Run(actions)) && Truthful(Run(actions))
  {
    if actions != [] {
      var n := |actions| - 1;
      RunKeeps(actions[..n]);
      StepAccounts(Run(actions[..n]), actions[n]);
      StepTruthful(Run(actions[..n]), actions[n]);
    }
  }

  // ---------------------------------------------------------------- theorems

  /**
   Report conservation over every run: the queue is the unsent end of everything ever queued,
   in order and never longer than its limit, and every report no longer in it was carried by a
   poll that returned ok, or was pushed out by 1,000 later ones.
   */
  lemma ReportsConserved(actions: seq<Action>, i: nat)
    requires i < |Run(actions).all|
    ensures var s := Run(actions);
            && s.front <= |s.all| && |Queue(s)| <= 1_000
            && (i >= s.front ==> Queue(s)[i - s.front] == s.all[i])
            && (i < s.front ==> Confirmed(s, i) || |s.all| >= i + 1 + 1_000)
  {
    RunKeeps(actions);
    QueueIsEnd(Run(actions), i);
  }

  lemma QueueIsEnd(s: State, i: nat)
    requires Accounted(s) && i < |s.all|
    ensures |Queue(s)| <= 1_000
    ensures i >= s.front ==> Queue(s)[i - s.front] == s.all[i]
    ensures i < s.front ==> Confirmed(s, i) || |s.all| >= i + 1 + 1_000
  {
    assert i < s.front && !Confirmed(s, i) ==> i in s.dropped;
  }

  /**
   Terminal-status convergence over every run: a terminal report handed to the receiver is in the
   queue's history; it is still queued, or the control plane holds a terminal status for its
   command, or 1,000 later reports were queued.
   */
  lemma TerminalReportArrives(actions: seq<Action>, r: Report)
    requires r in Run(actions).issued && r.status in [Succeeded, Failed, RefusedStatus]
    ensures var s := Run(actions);
            && r in s.all
            && forall i | 0 <= i < |s.all| && s.all[i] == r ::
                 i >= s.front || Settled(s.board, r.commandId) || |s.all| >= i + 1 + 1_000
  {
    RunKeeps(actions);
    var s := Run(actions);
    forall i | 0 <= i < |s.all| && s.all[i] == r
      ensures i >= s.front || Settled(s.board, r.commandId) || |s.all| >= i + 1 + 1_000
    {
      if i < s.front && Confirmed(s, i) {
        ConfirmedIsSettled(s, i);
      }
    }
  }

  lemma ConfirmedIsSettled(s: State, i: nat)
    requires Accounted(s) && Truthful(s) && i < |s.all|
    requires Confirmed(s, i) && IsTerminal(s.all[i].status)
    ensures Settled(s.board, s.all[i].commandId)
  {
    var p :| p in s.accepted && p.lo <= i < p.hi;
    assert p in s.served;
  }

  /** Once a poll carrying a terminal report returned ok, its command has one terminal status for ever. */
  lemma ConfirmedForGood(actions: seq<Action>, k: nat, i: nat)
    requires k <= |actions| && i < |Run(actions[..k]).all|
    requires Confirmed(Run(actions[..k]), i) && Run(actions[..k]).all[i].status in [Succeeded, Failed, RefusedStatus]
    ensures var early, late := Run(actions[..k]), Run(actions);
            var id := early.all[i].commandId;
            && Settled(early.board, id) && Settled(late.board, id) && late.board[id] == early.board[id]
            && Reported(early, id, early.board[id].status)
            && early.board[id].status in [Succeeded, Failed, RefusedStatus]
  {
    RunKeeps(actions[..k]);
    ConfirmedIsSettled(Run(actions[..k]), i);
    SettledForGood(actions, k, Run(actions[..k]).all[i].commandId);
  }

  /** If every terminal report about a command says the same, that is what the control plane ends up with. */
  lemma OnlyTerminalStatusWins(actions: seq<Action>, id: string, status: Status)
    requires Settled(Run(actions).board, id)
    requires forall r |
               r in Run(actions).issued && r.commandId == id && r.status in [Succeeded, Failed, RefusedStatus] ::
                 r.status == status
    ensures Run(actions).board[id] == Done(status) && status in [Succeeded, Failed, RefusedStatus]
  {
    RunKeeps(actions);
    var s := Run(actions);
    var r :| r in s.issued && r.commandId == id && r.status == s.board[id].status && IsTerminal(r.status);
  }
}
