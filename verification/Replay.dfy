/**
 Which commands the agent dispatches, and how often the same signed command can get through:
 the dedupe window over command ids, the refusal checks in their order, and the replay window
 over nonces. One delivered command is one atomic step, whichever channel it came by.
 */
module Replay {
  import opened Signing
  import opened SignedText

  const MAX_NONCES := 10_000
  const MAX_IDS := 10_000
  const SECOND := 1_000_000_000
  const MAX_CLOCK_SKEW := 5 * 60 * SECOND

  datatype Incoming = Incoming(cmd: Command, signature: string)

  datatype Refusal = ReadOnly | BadKey | BadSignature | Skewed | ReplayedNonce

  /**
   What the refusal checks depend on: `verifies` is the Ed25519 check of the signing payload,
   `text` the message a refusal is reported with.
   */
  datatype Config = Config(writerEnabled: bool, keyReadable: bool, verifies: Incoming -> bool, text: Refusal -> string)

  datatype Verdict = Duplicate | Refused(why: Refusal) | Dispatched

  datatype Dispatch = Dispatch(incoming: Incoming, now: int, idIndex: nat)

  /** The two windows, and the histories they are windows of. */
  datatype State = State(ids: seq<string>, nonces: seq<string>, idLog: seq<string>, log: seq<Dispatch>)

  const INITIAL := State([], [], [], [])

  /** The last `n` elements. */
  function Last<T>(s: seq<T>, n: nat): seq<T> {
    if |s| <= n then s else s[|s| - n..]
  }

  /** A first-in first-out window of at most `cap` distinct strings. */
  function Remember(window: seq<string>, x: string, cap: nat): seq<string> {
    if x in window then window
    else if |window| + 1 > cap then (window + [x])[1..]
    else window + [x]
  }

  predicate WithinSkew(cmd: Command, now: int) {
    -MAX_CLOCK_SKEW <= now - cmd.timestamp * SECOND <= MAX_CLOCK_SKEW
  }

  /** The checks before the nonce is looked up. */
  function Screen(cfg: Config, incoming: Incoming, now: int): Verdict {
    if !cfg.writerEnabled then Refused(ReadOnly)
    else if !cfg.keyReadable then Refused(BadKey)
    else if !cfg.verifies(incoming) then Refused(BadSignature)
    else if !WithinSkew(incoming.cmd, now) then Refused(Skewed)
    else Dispatched
  }

  function Judge(cfg: Config, s: State, incoming: Incoming, now: int): Verdict {
    if incoming.cmd.id in s.ids then Duplicate
    else
      var v := Screen(cfg, incoming, now);
      if v == Dispatched && incoming.cmd.nonce in s.nonces then Refused(ReplayedNonce) else v
  }

  function Process(cfg: Config, s: State, incoming: Incoming, now: int): State {
    var v := Judge(cfg, s, incoming, now);
    if v == Duplicate then s
    else
      var s' := s.(ids := Remember(s.ids, incoming.cmd.id, MAX_IDS), idLog := s.idLog + [incoming.cmd.id]);
      if v != Dispatched then s'
      else s'.(nonces := Remember(s.nonces, incoming.cmd.nonce, MAX_NONCES),
               log := s.log + [Dispatch(incoming, now, |s.idLog|)])
  }

  function Run(cfg: Config, deliveries: seq<(Incoming, int)>): State {
    if deliveries == [] then INITIAL
    else
      var n := |deliveries| - 1;
      Process(cfg, Run(cfg, deliveries[..n]), deliveries[n].0, deliveries[n].1)
  }

  // -------------------------------------------------------------- invariants

  /** The writer is on, the key could be read, the signature verifies, and the clocks are within five minutes. */
  predicate Passes(cfg: Config, incoming: Incoming, now: int) {
    && cfg.writerEnabled && cfg.keyReadable && cfg.verifies(incoming)
    && -300_000_000_000 <= now - incoming.cmd.timestamp * 1_000_000_000 <= 300_000_000_000
  }

  function NonceLog(s: State): seq<string> {
    seq(|s.log|, i requires 0 <= i < |s.log| => s.log[i].incoming.cmd.nonce)
  }

  /** Equal entries are more than `cap` apart, so any `cap` + 1 consecutive entries are distinct. */
  ghost predicate Spaced<T(!new)>(s: seq<T>, cap: nat) {
    forall i, j | 0 <= i < j < |s| && s[i] == s[j] :: j - i > cap
  }

  lemma RememberIsLast(log: seq<string>, x: string, cap: nat)
    requires x !in Last(log, cap)
    ensures Remember(Last(log, cap), x, cap) == Last(log + [x], cap)
    ensures Spaced(log, cap) ==> Spaced(log + [x], cap)
  {
    var grown := log + [x];
    if Spaced(log, cap) {
      forall i, j | 0 <= i < j < |grown| && grown[i] == grown[j] ensures j - i > cap {
        if j == |log| {
          InLast(log, i, cap);
        }
      }
    }
  }

  lemma InLast<T>(log: seq<T>, i: nat, cap: nat)
    requires i < |log|
    ensures |log| - i <= cap ==> log[i] in Last(log, cap)
  {
    var w := Last(log, cap);
    assert |log| - i <= cap ==> w[i - (|log| - |w|)] == log[i];
  }

  /** The windows are the last ids recorded and the last nonces dispatched, and both logs are spaced. */
  ghost predicate Inv(cfg: Config, s: State) {
    && s.ids == Last(s.idLog, MAX_IDS) && Spaced(s.idLog, MAX_IDS)
    && s.nonces == Last(NonceLog(s), MAX_NONCES) && Spaced(NonceLog(s), MAX_NONCES)
    && (forall i | 0 <= i < |s.log| ::
          && s.log[i].idIndex < |s.idLog| && s.idLog[s.log[i].idIndex] == s.log[i].incoming.cmd.id
          && Passes(cfg, s.log[i].incoming, s.log[i].now))
    && (forall i, j | 0 <= i < j < |s.log| :: s.log[i].idIndex < s.log[j].idIndex)
  }

  lemma ProcessKeeps(cfg: Config, s: State, incoming: Incoming, now: int)
    requires Inv(cfg, s)
    ensures Inv(cfg, Process(cfg, s, incoming, now))
  {
    var s', v := Process(cfg, s, incoming, now), Judge(cfg, s, incoming, now);
    if v != Duplicate {
      RememberIsLast(s.idLog, incoming.cmd.id, MAX_IDS);
      if v == Dispatched {
        RememberIsLast(NonceLog(s), incoming.cmd.nonce, MAX_NONCES);
        assert NonceLog(s') == NonceLog(s) + [incoming.cmd.nonce];
      } else {
        assert NonceLog(s') == NonceLog(s);
      }
    }
  }

  lemma {:induction false} RunKeeps(cfg: Config, deliveries: seq<(Incoming, int)>)
    ensures Inv(cfg, Run(cfg, deliveries))
  {
    if deliveries != [] {
      var n := |deliveries| - 1;
      RunKeeps(cfg, deliveries[..n]);
      ProcessKeeps(cfg, Run(cfg, deliveries[..n]), deliveries[n].0, deliveries[n].1);
    }
  }

  /**
   Bounded replay: if a command with the same nonce, id and timestamp is dispatched twice, at
   least 10,000 dispatches with pairwise different nonces and 10,000 pairwise different fresh
   command ids lie between, and both dispatches fall within ten minutes of the local clock.
   */
  ghost predicate FarApart(s: State, i: nat, j: nat)
    requires i < j < |s.log|
  {
    var x, y := s.log[i], s.log[j];
    && j - i > 10_000
    && (forall k, l | i <= k < l <= i + 10_000 :: s.log[k].incoming.cmd.nonce != s.log[l].incoming.cmd.nonce)
    && x.idIndex < y.idIndex < |s.idLog| && y.idIndex - x.idIndex > 10_000
    && (forall k, l | x.idIndex <= k < l <= x.idIndex + 10_000 :: s.idLog[k] != s.idLog[l])
    && -600_000_000_000 <= y.now - x.now <= 600_000_000_000
  }

  lemma InvBoundsReplay(cfg: Config, s: State, i: nat, j: nat)
    requires Inv(cfg, s) && i < j < |s.log|
    requires var a, b := s.log[i].incoming.cmd, s.log[j].incoming.cmd;
             a.nonce == b.nonce && a.id == b.id && a.timestamp == b.timestamp
    ensures FarApart(s, i, j)
  {
    assert NonceLog(s)[i] == NonceLog(s)[j];
    forall k, l | i <= k < l <= i + 10_000
      ensures s.log[k].incoming.cmd.nonce != s.log[l].incoming.cmd.nonce
    {
      assert NonceLog(s)[k] != NonceLog(s)[l];
    }
    assert s.idLog[s.log[i].idIndex] == s.idLog[s.log[j].idIndex];
  }

  /** Over every run, two dispatches of the same nonce, id and timestamp are that far apart. */
  lemma ReplayIsBounded(cfg: Config, deliveries: seq<(Incoming, int)>, i: nat, j: nat)
    requires i < j < |Run(cfg, deliveries).log|
    requires var a, b := Run(cfg, deliveries).log[i].incoming.cmd, Run(cfg, deliveries).log[j].incoming.cmd;
             a.nonce == b.nonce && a.id == b.id && a.timestamp == b.timestamp
    ensures FarApart(Run(cfg, deliveries), i, j)
  {
    RunKeeps(cfg, deliveries);
    InvBoundsReplay(cfg, Run(cfg, deliveries), i, j);
  }

  /** And so are two dispatches of the same signed text, if that text has one reading. */
  lemma SignedTextIsBounded(cfg: Config, deliveries: seq<(Incoming, int)>, i: nat, j: nat, hex: Hex)
    requires HexDigest(hex) && i < j < |Run(cfg, deliveries).log|
    requires var a, b := Run(cfg, deliveries).log[i].incoming.cmd, Run(cfg, deliveries).log[j].incoming.cmd;
             && PinnedDown(a, hex) && Int64(a.timestamp) && Int64(b.timestamp)
             && SigningPayload(a, hex) == SigningPayload(b, hex)
    ensures FarApart(Run(cfg, deliveries), i, j)
  {
    var s := Run(cfg, deliveries);
    PayloadIsUnambiguous(s.log[i].incoming.cmd, s.log[j].incoming.cmd, hex);
    ReplayIsBounded(cfg, deliveries, i, j);
  }

  ghost predicate NotRecent(log: seq<string>, x: string, cap: nat) {
    forall k | 0 <= k < |log| && |log| - k <= cap :: log[k] != x
  }

  lemma NotInLast(log: seq<string>, x: string, cap: nat)
    ensures x !in Last(log, cap) <==> NotRecent(log, x, cap)
  {
    var w := Last(log, cap);
    forall k | 0 <= k < |log| {
      InLast(log, k, cap);
    }
    if x in w {
      var i :| 0 <= i < |w| && w[i] == x;
      assert log[i + (|log| - |w|)] == x;
    }
  }

  /** Over every run, whatever was delivered: only signed commands of a writable agent, in time, are dispatched. */
  lemma OnlySignedCommands(cfg: Config, deliveries: seq<(Incoming, int)>, d: Dispatch)
    requires d in Run(cfg, deliveries).log
    ensures cfg.writerEnabled && cfg.keyReadable && cfg.verifies(d.incoming)
    ensures -300_000_000_000 <= d.now - d.incoming.cmd.timestamp * 1_000_000_000 <= 300_000_000_000
    ensures exists k | 0 <= k < |deliveries| :: deliveries[k] == (d.incoming, d.now)
  {
    RunKeeps(cfg, deliveries);
    DispatchedWereDelivered(cfg, deliveries, d);
  }

  lemma {:induction false} DispatchedWereDelivered(cfg: Config, deliveries: seq<(Incoming, int)>, d: Dispatch)
    requires d in Run(cfg, deliveries).log
    ensures exists k | 0 <= k < |deliveries| :: deliveries[k] == (d.incoming, d.now)
  {
    var n := |deliveries| - 1;
    if d in Run(cfg, deliveries[..n]).log {
      DispatchedWereDelivered(cfg, deliveries[..n], d);
      var k :| 0 <= k < n && deliveries[..n][k] == (d.incoming, d.now);
      assert deliveries[k] == (d.incoming, d.now);
    } else {
      assert deliveries[n] == (d.incoming, d.now);
    }
  }

  /**
   After every run, a command is dispatched exactly when its id is not among the last 10,000
   fresh ids, the writer is on, the key could be read, the signature verifies, the clocks are
   within five minutes, and its nonce is not among the last 10,000 dispatched ones.
   */
  lemma DispatchedExactlyWhen(cfg: Config, deliveries: seq<(Incoming, int)>, incoming: Incoming, now: int)
    ensures var s := Run(cfg, deliveries);
            Judge(cfg, s, incoming, now) == Dispatched <==>
              && NotRecent(s.idLog, incoming.cmd.id, 10_000)
              && cfg.writerEnabled && cfg.keyReadable && cfg.verifies(incoming)
              && -300_000_000_000 <= now - incoming.cmd.timestamp * 1_000_000_000 <= 300_000_000_000
              && NotRecent(NonceLog(s), incoming.cmd.nonce, 10_000)
  {
    RunKeeps(cfg, deliveries);
    var s := Run(cfg, deliveries);
    NotInLast(s.idLog, incoming.cmd.id, MAX_IDS);
    NotInLast(NonceLog(s), incoming.cmd.nonce, MAX_NONCES);
  }

  /**
   Which refusal it is when several conditions fail: the first of read-only mode, unreadable key,
   bad signature, clock and nonce. A known id is no refusal, and comes before all of them.
   */
  lemma RefusedExactlyWhen(cfg: Config, deliveries: seq<(Incoming, int)>, incoming: Incoming, now: int)
    ensures var s := Run(cfg, deliveries);
            var v, unseen := Judge(cfg, s, incoming, now), NotRecent(s.idLog, incoming.cmd.id, 10_000);
            var skew := now - incoming.cmd.timestamp * 1_000_000_000;
            var late := skew < -300_000_000_000 || skew > 300_000_000_000;
            && (v == Duplicate <==> !unseen)
            && (v == Refused(ReadOnly) <==> unseen && !cfg.writerEnabled)
            && (v == Refused(BadKey) <==> unseen && cfg.writerEnabled && !cfg.keyReadable)
            && (v == Refused(BadSignature) <==>
                  unseen && cfg.writerEnabled && cfg.keyReadable && !cfg.verifies(incoming))
            && (v == Refused(Skewed) <==>
                  unseen && cfg.writerEnabled && cfg.keyReadable && cfg.verifies(incoming) && late)
            && (v == Refused(ReplayedNonce) <==>
                  && unseen && cfg.writerEnabled && cfg.keyReadable && cfg.verifies(incoming) && !late
                  && !NotRecent(NonceLog(s), incoming.cmd.nonce, 10_000))
  {
    RunKeeps(cfg, deliveries);
    var s := Run(cfg, deliveries);
    NotInLast(s.idLog, incoming.cmd.id, MAX_IDS);
    NotInLast(NonceLog(s), incoming.cmd.nonce, MAX_NONCES);
  }

  /** What one more command leaves behind: every fresh id is remembered, every dispatch is logged, and nothing else. */
  lemma RememberedExactly(cfg: Config, deliveries: seq<(Incoming, int)>, incoming: Incoming, now: int)
    ensures var s, s' := Run(cfg, deliveries), Run(cfg, deliveries + [(incoming, now)]);
            && s'.idLog == s.idLog + (if NotRecent(s.idLog, incoming.cmd.id, 10_000) then [incoming.cmd.id] else [])
            && s'.log == s.log + (if Judge(cfg, s, incoming, now) == Dispatched
                                  then [Dispatch(incoming, now, |s.idLog|)] else [])
  {
    assert (deliveries + [(incoming, now)])[..|deliveries|] == deliveries;
    RefusedExactlyWhen(cfg, deliveries, incoming, now);
  }
}
