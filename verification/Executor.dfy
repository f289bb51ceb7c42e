/**
 The command handlers, for every way the API server can answer: each is proved to leave the
 trace its verb calls for.
 */
module Executor {
  import opened Options
  import opened Json
  import opened Reports
  import opened Commands
  import opened Outcomes
  import Drift
  import Redeploy

  class Executor {
    const cfg: Config
    const plan: Plan
    /** The API server: its answer may depend on everything that happened before. */
    const api: (Trace, Call) -> Reply
    /** How the k-th eviction attempt goes on the clock. */
    const pace: nat -> Pace

    var trace: Trace
    var now: int
    var attempts: nat
    ghost var sum: Summary

    constructor (cfg: Config, api: (Trace, Call) -> Reply, pace: nat -> Pace, now: int)
      ensures this.cfg == cfg && this.api == api && this.pace == pace && this.now == now && attempts == 0
      ensures Wired(cfg, plan) && trace == [] && At(Start)
      ensures sum == Summary(Start, [], [], [], [])
    {
      this.cfg, this.api, this.pace, this.now, attempts := cfg, api, pace, now, 0;
      trace, sum := [], Summary(Start, [], [], [], []);
      plan := Plan((obj, target) => Locate(cfg, obj, target), (named, live) => Prepare(cfg, named, live),
                   (cmd, live) => MayOverwrite(cfg, cmd, live), live => HashOf(cfg, live),
                   (target, cert, issuer, now) => RenewRequest(target, cert, issuer, now));
    }

    /** `sum` summarises the trace. */
    ghost predicate Sound()
      reads this
    {
      forall t {:trigger Peek(t)} | Peek(t) && t == trace :: Summarised(t, sum, cfg.dryRunFirst)
    }

    ghost predicate At(s: Stage)
      reads this
    {
      sum.stage == s && Sound()
    }

    method Tell(status: Status, progress: int)
      requires Sound()
      modifies this`trace, this`sum
      ensures Sound() && trace == old(trace) + [Told(status, progress)]
      ensures sum == old(sum).(stage := After(old(sum.stage), status, cfg.dryRunFirst),
                               progress := if status == Progress then old(sum.progress) + [progress]
                                   else old(sum.progress))
    {
      assert Peek(trace);
      Grows(trace, Told(status, progress), sum, cfg.dryRunFirst);
      trace, sum := trace + [Told(status, progress)], Extend(sum, Told(status, progress), cfg.dryRunFirst);
    }

    /** Anything but a write that must be rehearsed first. */
    method Ask(call: Call) returns (reply: Reply)
      requires Sound()
      requires call.Write? && !call.dryRun ==> !NeedsDryRun(call.op) && trace != [] && trace[|trace| - 1].Asked?
      modifies this`trace, this`sum
      ensures Sound() && trace == old(trace) + [Asked(call, reply)]
      ensures !call.Evict? && (!call.Write? || call.dryRun) ==> sum == old(sum)
      ensures call.Write? && !call.dryRun ==>
                sum == old(sum).(effects := if Accepted(call.op,
                    reply) then old(sum.effects) + [call.op] else old(sum.effects))
      ensures call.Evict? ==>
                sum == old(sum).(tried := old(sum.tried) + [call.pod],
                                 evicted := if reply == Ok || reply == Missing then old(sum.evicted) + [call.pod]
                                            else old(sum.evicted))
    {
      reply := api(trace, call);
      assert Peek(trace);
      assert (trace + [Asked(call, reply)])[..|trace|] == trace;
      Grows(trace, Asked(call, reply), sum, cfg.dryRunFirst);
      trace, sum := trace + [Asked(call, reply)], Extend(sum, Asked(call, reply), cfg.dryRunFirst);
    }

    /** The dry run, when configured, and the report that the real write follows. */
    method Rehearse(op: Operation) returns (ok: bool)
      requires At(Ready) || At(Writing)
      modifies this`trace, this`sum
      ensures old(trace) < trace && sum.effects == old(sum.effects)
      ensures ok ==> At(Writing) && (cfg.dryRunFirst ==> JustRehearsed(trace, op))
      ensures !ok ==> At(Ended) && trace[|trace| - 1] == Told(Failed, 0)
    {
      if cfg.dryRunFirst {
        var dry := Ask(Write(op, true));
        if !Accepted(op, dry) {
          Tell(Failed, 0);
          return false;
        }
        Tell(DryRun, 0);
      }
      Tell(Applying, 0);
      return true;
    }

    /** The real write. */
    method Commit(op: Operation) returns (reply: Reply)
      requires NeedsDryRun(op) && At(Writing) && (cfg.dryRunFirst ==> JustRehearsed(trace, op))
      modifies this`trace, this`sum
      ensures trace == old(trace) + [Asked(Write(op, false), reply)] && At(Writing)
      ensures sum.effects == old(sum.effects) + if Accepted(op, reply) then [op] else []
    {
      reply := api(trace, Write(op, false));
      assert Peek(trace);
      assert (trace + [Asked(Write(op, false), reply)])[..|trace|] == trace;
      Grows(trace, Asked(Write(op, false), reply), sum, cfg.dryRunFirst);
      trace, sum := trace + [Asked(Write(op, false), reply)], Extend(sum, Asked(Write(op, false), reply),
          cfg.dryRunFirst);
    }

    /** Dry run when configured, report, and the real write: the shape every mutation shares. */
    method Mutate(op: Operation) returns (ok: bool)
      requires NeedsDryRun(op) && (At(Ready) || At(Writing))
      modifies this`trace, this`sum
      ensures old(trace) < trace
      ensures ok ==> At(Writing) && Wrote(trace, |trace| - 1, op)
      ensures !ok ==> At(Ended) && trace[|trace| - 1] == Told(Failed, 0)
      ensures sum.effects == old(sum.effects) + if ok then [op] else []
    {
      ok := Rehearse(op);
      if ok {
        var reply := Commit(op);
        ok := Accepted(op, reply);
        if !ok {
          Tell(Failed, 0);
        }
      }
    }

    // ------------------------------------------------------------- handlers

    /** The configured drift policy. */
    method Overwritable(cmd: Command, live: Fields) returns (proceed: bool)
      requires Wired(cfg, plan)
      ensures proceed == plan.allows(cmd, live)
    {
      assert plan.allows(cmd, live) == MayOverwrite(cfg, cmd, live);
      if cmd.expectedHash == "" {
        return true;
      }
      var hash := Drift.HashObject(live, cfg.digest);
      if hash == cmd.expectedHash {
        return true;
      }
      match cfg.policy {
        case DriftOverwrite => return true;
        case DriftOverwriteWithApproval => return cmd.override;
        case DriftRefuse => return false;
      }
    }

    /** Apply the policy; a refusal is reported. */
    method CheckDrift(cmd: Command, live: Fields) returns (proceed: bool)
      requires Wired(cfg, plan) && (At(Ready) || At(Writing))
      modifies this`trace, this`sum
      ensures proceed == plan.allows(cmd, live)
      ensures proceed ==> trace == old(trace) && sum == old(sum)
      ensures !proceed ==>
                trace == old(trace) + [Told(RefusedStatus, 0)] && At(Ended) &&
                sum.effects == old(sum.effects)
    {
      proceed := Overwritable(cmd, live);
      if !proceed {
        Tell(RefusedStatus, 0);
      }
    }

    /** Default the name and namespace from the target and find the resource. */
    method Resolve(obj: Fields, target: Target) returns (located: Option<Located>)
      requires Wired(cfg, plan)
      ensures located == plan.locate(obj, target)
    {
      var named := obj;
      if LookupString(named, ["metadata", "name"]) == "" {
        named := WithDefault(named, ["metadata", "name"], target.name);
      }
      if LookupString(named, ["metadata", "namespace"]) == "" {
        named := WithDefault(named, ["metadata", "namespace"], target.namespace);
      }
      var place := PlaceOf(cfg, named, target);
      located := if place.None? then None else Some(Located(place.value, named));
      assert located == Locate(cfg, obj, target);
    }

    method Body(named: Fields, live: Option<Fields>) returns (body: Fields)
      requires Wired(cfg, plan)
      ensures body == plan.prepare(named, live)
    {
      var obj := new Unstructured(named);
      match live {
        case None =>
          Drift.Stamp(obj, cfg.digest);
          body := obj.content;
        case Some(l) =>
          var current := new Unstructured(l);
          var updated := Redeploy.UpdateBody(current, obj, cfg.parse, cfg.digest);
          body := updated.content;
      }
      assert body == Prepare(cfg, named, live);
    }

    /** The live object, if the drift policy lets the command overwrite it; otherwise the command is over. */
    method Current(cmd: Command, place: Place) returns (proceed: bool, live: Option<Fields>)
      requires Wired(cfg, plan) && (At(Ready) || At(Writing))
      modifies this`trace, this`sum
      ensures old(trace) < trace && sum.effects == old(sum.effects)
      ensures proceed ==> trace == old(trace) + [Asked(GetObject(place),
          if live.None? then Missing else Found(live.value))]
      ensures proceed ==> sum.stage == old(sum.stage) && Sound()
      ensures proceed && live.Some? ==> plan.allows(cmd, live.value)
      ensures !proceed ==> At(Ended) && Negative(trace[|trace| - 1])
      ensures !proceed ==> (trace[|trace| - 1].status == RefusedStatus <==> Drifted(plan, cmd, trace, |old(trace)|))
    {
      var reply := Ask(GetObject(place));
      match reply {
        case Found(l) =>
          live := Some(l);
          proceed := CheckDrift(cmd, l);
        case Missing =>
          proceed, live := true, None;
        case _ =>
          Tell(Failed, 0);
          proceed, live := false, None;
      }
    }

    method ApplyObject(cmd: Command, obj: Fields) returns (r: Outcome, live: Option<Fields>)
      requires Wired(cfg, plan) && (At(Ready) || At(Writing))
      modifies this`trace, this`sum
      ensures old(trace) < trace
      ensures r.Stopped? ==>
                && At(Ended) && Negative(trace[|trace| - 1]) && sum.effects == old(sum.effects)
                && (trace[|trace| - 1].status == RefusedStatus <==> Drifted(plan, cmd, trace, |old(trace)|))
      ensures !r.Stopped? ==>
                && At(Writing) && r == (if live.None? then Created else Updated)
                && RolledOut(plan, cmd, trace, obj, Rollout(live, |old(trace)|, |trace| - 1))
                && sum.effects == old(sum.effects) + [ApplyOperation(plan, cmd, obj, live).value]
    {
      r, live := Stopped, None;
      var located := Resolve(obj, cmd.target);
      if located.None? {
        Tell(Failed, 0);
        return;
      }
      var proceed;
      proceed, live := Current(cmd, located.value.place);
      if !proceed {
        return;
      }
      var body := Body(located.value.named, live);
      var op := if live.None? then Create(located.value.place, body) else Update(located.value.place, body);
      var ok := Mutate(op);
      r := if !ok then Stopped else if live.None? then Created else Updated;
    }

    /** Every object in order, until one of them stops the command. */
    method ApplyAll(cmd: Command, objs: seq<Fields>)
      returns (ok: bool, created: nat, updated: nat, ghost xs: seq<Rollout>)
      requires Wired(cfg, plan) && At(Ready)
      modifies this`trace, this`sum
      ensures old(trace) <= trace && created + updated == |xs| <= |objs|
      ensures Applied(plan, cmd, trace, |old(trace)|, objs[..|xs|], xs, old(sum.effects), sum.effects, created)
      ensures ok ==> (At(Ready) || At(Writing)) && |xs| == |objs|
      ensures !ok ==> old(trace) < trace && At(Ended) && Negative(trace[|trace| - 1]) && |xs| < |objs|
      ensures ok ==> |trace| == NextRead(|old(trace)|, xs)
      ensures !ok ==>
                (trace[|trace| - 1].status == RefusedStatus <==> Drifted(plan, cmd, trace, NextRead(|old(trace)|, xs)))
    {
      ok, created, updated, xs := true, 0, 0, [];
      var i := 0;
      while i < |objs|
        invariant 0 <= i <= |objs| && old(trace) <= trace && (At(Ready) || At(Writing))
        invariant created + updated == i == |xs| && |trace| == NextRead(|old(trace)|, xs)
        invariant Applied(plan, cmd, trace, |old(trace)|, objs[..i], xs, old(sum.effects), sum.effects, created)
      {
        ghost var done, before := sum.effects, trace;
        var r, live := ApplyObject(cmd, objs[i]);
        AppliedLater(plan, cmd, before, trace, |old(trace)|, objs[..i], xs, old(sum.effects), done, created);
        if r.Stopped? {
          ok := false;
          return;
        }
        ghost var x := Rollout(live, |before|, |trace| - 1);
        AppliedGrows(plan, cmd, before, trace, |old(trace)|, objs, i, xs, x, old(sum.effects), done, created);
        xs := xs + [x];
        if live.None? {
          created := created + 1;
        } else {
          updated := updated + 1;
        }
        i := i + 1;
      }
    }

    method ApplyManifest(cmd: Command) returns (created: nat, updated: nat, ghost xs: seq<Rollout>)
      requires Wired(cfg, plan) && At(Ready)
      modifies this`trace, this`sum
      ensures At(Ended) && old(trace) < trace && trace[|trace| - 1].Told? && created + updated == |xs|
      ensures ManifestApplied(plan, cmd, trace, |old(trace)|, old(sum.effects), sum.effects, created, xs)
    {
      created, updated, xs := 0, 0, [];
      if cmd.manifest.None? || cmd.manifest.value == [] {
        Tell(Failed, 0);
        return;
      }
      var ok;
      ok, created, updated, xs := ApplyAll(cmd, cmd.manifest.value);
      if ok {
        ghost var done := trace;
        Tell(Succeeded, 0);
        ManifestSucceeds(plan, cmd, done, trace, |old(trace)|, old(sum.effects), sum.effects, created, xs);
      }
    }

    /** Patch the target, then record the hash of what the patch made of it. */
    method PatchTarget(cmd: Command) returns (ghost found: Fields, ghost at: nat)
      requires Wired(cfg, plan) && At(Ready)
      modifies this`trace, this`sum
      ensures At(Ended) && old(trace) < trace && trace[|trace| - 1].Told?
      ensures Patched(plan, cmd, trace, |old(trace)|, old(sum.effects), sum.effects, found, at)
    {
      found, at := map[], 0;
      if cmd.patchType != "strategic" && cmd.patchType != "merge" && cmd.patchType != "json" {
        Tell(RefusedStatus, 0);
        return;
      }
      var place := TargetPlace(cmd.target);
      var proceed, live := Current(cmd, place);
      if !proceed {
        return;
      }
      if live.None? {
        Tell(Failed, 0);
        return;
      }
      found := live.value;
      ghost var read := trace;
      at := PatchLive(PatchWith(place, cmd.patchType, cmd.patch));
      PatchConcluded(plan, cmd, read, trace, |old(trace)|, old(sum.effects), sum.effects, found, at);
    }

    method PatchLive(op: Operation) returns (ghost at: nat)
      requires Wired(cfg, plan) && At(Ready) && op.PatchWith?
      modifies this`trace, this`sum
      ensures At(Ended) && old(trace) < trace
      ensures trace[|trace| - 1] in [Told(Succeeded, 0), Told(Failed, 0)]
      ensures trace[|trace| - 1].status == Failed ==> sum.effects == old(sum.effects)
      ensures trace[|trace| - 1].status == Succeeded ==>
                && |old(trace)| <= at && Wrote(trace, at, op)
                && sum.effects == old(sum.effects) + [op] + Restamped(plan, trace, at + 1, op.place)
                && HashRecorded(plan, trace, at + 1, op.place)
    {
      at := 0;
      var ok := Mutate(op);
      if ok {
        at := |trace| - 1;
        RecordHash(op.place);
        Tell(Succeeded, 0);
      }
    }

    /** Re-stamp the hash annotation; a failure here is only logged. */
    method RecordHash(place: Place)
      requires Wired(cfg, plan) && At(Writing)
      modifies this`trace, this`sum
      ensures At(Writing) && old(trace) < trace
      ensures HashRecorded(plan, trace, |old(trace)|, place)
      ensures sum.effects == old(sum.effects) + Restamped(plan, trace, |old(trace)|, place)
    {
      var again := Ask(GetObject(place));
      if again.Found? {
        var obj := new Unstructured(again.live);
        Drift.Stamp(obj, cfg.digest);
        var hash := Drift.RecordedHash(obj.content);
        assert hash == HashOf(cfg, again.live);
        var _ := Ask(Write(Restamp(place, hash), false));
      }
    }

    method DeleteTarget(cmd: Command) returns (ghost found: Option<Fields>)
      requires Wired(cfg, plan) && At(Ready)
      modifies this`trace, this`sum
      ensures At(Ended) && old(trace) < trace && trace[|trace| - 1].Told?
      ensures Deleted(plan, cmd, trace, |old(trace)|, old(sum.effects), sum.effects, found)
    {
      var place := TargetPlace(cmd.target);
      var proceed, live := Current(cmd, place);
      found := live;
      if !proceed {
        return;
      }
      if live.None? {
        Tell(Succeeded, 0);
        return;
      }
      var ok := Mutate(Remove(place));
      if ok {
        Tell(Succeeded, 0);
      }
    }

    method Renewal(target: Target, cert: Fields, issuer: Fields, now: int) returns (op: Operation)
      requires Wired(cfg, plan)
      ensures op == plan.renewal(target, cert, issuer, now) && NeedsDryRun(op)
    {
      op := RenewRequest(target, cert, issuer, now);
    }

    /** Ask cert-manager for a fresh certificate. */
    method RotateCertificate(cmd: Command, now: int) returns (ghost cert: Fields, ghost issuer: Fields)
      requires Wired(cfg, plan) && At(Ready)
      modifies this`trace, this`sum
      ensures At(Ended) && old(trace) < trace && trace[|trace| - 1].Told?
      ensures Renewed(plan, cmd, now, trace, |old(trace)|, old(sum.effects), sum.effects, cert, issuer)
    {
      cert, issuer := map[], map[];
      var reply := Ask(GetObject(CertificatePlace(cmd.target)));
      if !reply.Found? {
        Tell(Failed, 0);
        return;
      }
      var ref := Lookup(reply.live, ["spec", "issuerRef"]);
      if ref.None? || !ref.value.Obj? {
        Tell(Failed, 0);
        return;
      }
      cert, issuer := reply.live, ref.value.fields;
      var op := Renewal(cmd.target, reply.live, ref.value.fields, now);
      var ok := Mutate(op);
      if ok {
        Tell(Succeeded, 0);
      }
    }

    method Uncordon(cmd: Command)
      requires At(Ready)
      modifies this`trace, this`sum
      ensures At(Ended) && old(trace) < trace && trace[|trace| - 1].Told?
      ensures sum.effects == old(sum.effects) +
                if trace[|trace| - 1].status == Succeeded then [SetUnschedulable(cmd.target.name, false)] else []
    {
      var node := cmd.target.name;
      if node == "" {
        Tell(Failed, 0);
        return;
      }
      var got := Ask(GetNode(node));
      if got != Ok {
        Tell(Failed, 0);
        return;
      }
      var set' := Ask(Write(SetUnschedulable(node, false), false));
      if set' != Ok {
        Tell(Failed, 0);
        return;
      }
      Tell(Succeeded, 0);
    }

    // ---------------------------------------------------------------- drain

    /** Evict one pod, retrying every two seconds until it works, stalls or is cancelled. */
    method EvictPod(pod: Pod, since: int, done: nat, total: nat) returns (r: Eviction)
      requires (At(Ready) || At(Moving)) && since <= now && done < total
      modifies this`trace, this`sum, this`now, this`attempts
      ensures Sound() && old(trace) < trace && now >= old(now)
      ensures |sum.tried| <= |old(sum.tried)| + Tries(cfg.drainStallTimeout)
      ensures sum.effects == old(sum.effects) && old(sum.tried) < sum.tried
      ensures forall k | |old(sum.tried)| <= k < |sum.tried| :: sum.tried[k] == pod
      ensures r.Gone? ==>
                sum.stage == old(sum.stage) && sum.evicted == old(sum.evicted) + [pod] &&
                sum.progress == old(sum.progress)
      ensures r.Stalled? ==>
                sum.stage == Moving && sum.evicted == old(sum.evicted) &&
                sum.progress == old(sum.progress) + [Percent(done, total)]
      ensures r.Cancelled? ==>
                sum.stage == Ended && sum.evicted == old(sum.evicted) &&
                sum.progress == old(sum.progress)
      ensures r.Stalled? ==> now - since >= cfg.drainStallTimeout
      ensures r.Stalled? ==> trace[|trace| - 1].Told? && trace[|trace| - 1].status == Progress
      ensures r.Cancelled? ==> trace[|trace| - 1] == Told(Failed, 0)
    {
      var timeout := cfg.drainStallTimeout;
      var k := 0;
      while true
        invariant Sound() && old(trace) <= trace && (k > 0 ==> old(trace) < trace) && old(now) <= now
        invariant sum == old(sum).(tried := sum.tried) && |sum.tried| == |old(sum.tried)| + k &&
            old(sum.tried) <= sum.tried
        invariant forall i | |old(sum.tried)| <= i < |sum.tried| :: sum.tried[i] == pod
        invariant now - since >= Wait(k)
        invariant k > 0 ==> Wait(k - 1) < timeout
        decreases Tries(timeout) - k
      {
        TriesBound(k, timeout);
        var p := pace(attempts);
        var reply := Ask(Evict(pod));
        now, attempts, k := now + p.call, attempts + 1, k + 1;
        if reply == Ok || reply == Missing {
          return Gone;
        }
        if now - since >= timeout {
          Tell(Progress, Percent(done, total));
          return Stalled;
        }
        if p.cancelled {
          Tell(Failed, 0);
          return Cancelled;
        }
        now := now + 2_000_000_000 + p.oversleep;
      }
    }

    /** Count the pods to evict. */
    method CountEvictable(node: string, pods: seq<Pod>) returns (total: nat)
      ensures total == |Evictables(cfg, node, pods)|
    {
      total := 0;
      for i := 0 to |pods|
        invariant total == |Evictables(cfg, node, pods[..i])|
      {
        assert pods[..i + 1][..i] == pods[..i];
        if !Skipped(cfg, node, pods[i]) {
          total := total + 1;
        }
      }
      assert pods[..|pods|] == pods;
    }

    /** Evict the next pod and report how far the drain is. */
    method EvictNext(pod: Pod, since: int, done: nat, total: nat, ghost start: Summary, ghost todo: seq<Pod>)
      returns (r: Eviction)
      requires Sound() && since <= now && start.stage == Ready
      requires done < total == |todo| && todo[done] == pod && Drained(start, sum, todo, done, Gone)
      modifies this`trace, this`sum, this`now, this`attempts
      ensures Sound() && old(trace) < trace && now >= old(now)
      ensures Drained(start, sum, todo, if r.Gone? then done + 1 else done, r)
      ensures |sum.tried| <= |old(sum.tried)| + Tries(cfg.drainStallTimeout)
      ensures r.Stalled? ==> trace[|trace| - 1].Told? && trace[|trace| - 1].status == Progress
      ensures r.Cancelled? ==> trace[|trace| - 1] == Told(Failed, 0)
    {
      r := EvictPod(pod, since, done, total);
      DrainedGrows(start, old(sum), sum, todo, done, r);
      if r.Gone? {
        ghost var before := sum;
        Tell(Progress, Percent(done + 1, total));
        ProgressGrows(start, before, sum, todo, done + 1);
      }
    }

    /** The pod at one position of the list: skip it, or evict it. */
    method EvictAt(node: string, pods: seq<Pod>, i: nat, since: int, done: nat, total: nat, ghost start: Summary)
      returns (done': nat, since': int, r: Eviction)
      requires |sum.tried| <= |start.tried| + Budget(done, Tries(cfg.drainStallTimeout))
      requires i < |pods| && Sound() && since <= now && start.stage == Ready
      requires done == |Evictables(cfg, node, pods[..i])| && total == |Evictables(cfg, node, pods)|
      requires Drained(start, sum, Evictables(cfg, node, pods), done, Gone)
      modifies this`trace, this`sum, this`now, this`attempts
      ensures Sound() && old(trace) <= trace && since' <= now
      ensures done' >= done && (done' > done || !r.Gone? ==> old(trace) < trace)
      ensures r.Gone? ==> done' == |Evictables(cfg, node, pods[..i + 1])|
      ensures !r.Gone? ==> done' == done
      ensures Drained(start, sum, Evictables(cfg, node, pods), done', r)
      ensures |sum.tried| <= |start.tried| + Budget(if r.Gone? then done' else total, Tries(cfg.drainStallTimeout))
      ensures !r.Gone? ==> done < total
      ensures r.Stalled? ==> trace[|trace| - 1].Told? && trace[|trace| - 1].status == Progress
      ensures r.Cancelled? ==> trace[|trace| - 1] == Told(Failed, 0)
    {
      done', since', r := done, since, Gone;
      NthEvictable(cfg, node, pods, i);
      if !Skipped(cfg, node, pods[i]) {
        r := EvictNext(pods[i], since, done, total, start, Evictables(cfg, node, pods));
        if r.Gone? {
          done', since' := done + 1, now;
        }
        BudgetGrows(done + 1, total, Tries(cfg.drainStallTimeout));
      }
    }

    /** Evict the listed pods in order; `done` counts the successes. */
    method EvictAll(node: string, pods: seq<Pod>, total: nat) returns (done: nat, r: Eviction)
      requires At(Ready) && total == |Evictables(cfg, node, pods)| > 0
      modifies this`trace, this`sum, this`now, this`attempts
      ensures Sound() && old(trace) < trace
      ensures Drained(old(sum), sum, Evictables(cfg, node, pods), done, r) && (r.Gone? <==> done == total)
      ensures |sum.tried| <= |old(sum.tried)| + Budget(total, Tries(cfg.drainStallTimeout))
      ensures r.Stalled? ==> trace[|trace| - 1].Told? && trace[|trace| - 1].status == Progress
      ensures r.Cancelled? ==> trace[|trace| - 1] == Told(Failed, 0)
    {
      done, r := 0, Gone;
      ghost var todo, tries := Evictables(cfg, node, pods), Tries(cfg.drainStallTimeout);
      var since := now;
      assert Drained(sum, sum, todo, 0, Gone) by { assert todo[..0] == []; }
      for i := 0 to |pods|
        invariant Sound() && old(trace) <= trace && since <= now && (done > 0 ==> old(trace) < trace)
        invariant r.Gone? && done == |Evictables(cfg, node, pods[..i])|
        invariant Drained(old(sum), sum, todo, done, Gone)
        invariant |sum.tried| <= |old(sum.tried)| + Budget(done, tries)
      {
        ghost var t := trace;
        done, since, r := EvictAt(node, pods, i, since, done, total, old(sum));
        StillPrefix(old(trace), t, trace);
        if !r.Gone? {
          return;
        }
      }
      assert pods[..|pods|] == pods;
    }

    /** Cordon the node and list its pods. */
    method Cordon(node: string) returns (pods: Option<seq<Pod>>)
      requires At(Ready)
      modifies this`trace, this`sum
      ensures Sound() && old(trace) < trace
      ensures pods.Some? ==>
                && sum == old(sum).(effects := old(sum.effects) + [SetUnschedulable(node, true)])
                && |trace| == |old(trace)| + 3 && Cordoned(trace, |old(trace)|, node, pods.value)
      ensures pods.None? ==>
                && sum == old(sum).(stage := Ended, effects := sum.effects) && trace[|trace| - 1] == Told(Failed, 0)
                && forall k | |old(trace)| <= k < |trace| :: !IsEvict(trace[k])
      ensures sum.effects == old(sum.effects) || sum.effects == old(sum.effects) + [SetUnschedulable(node, true)]
    {
      pods := None;
      if node == "" {
        Tell(Failed, 0);
        return;
      }
      var got := Ask(GetNode(node));
      if got != Ok {
        Tell(Failed, 0);
        return;
      }
      var cordoned := Ask(Write(SetUnschedulable(node, true), false));
      if cordoned != Ok {
        Tell(Failed, 0);
        return;
      }
      var listed := Ask(ListPods(node));
      if listed.Pods? {
        pods := Some(listed.pods);
      } else {
        Tell(Failed, 0);
      }
    }

    /** Evict the pods of a node that was just cordoned. */
    method DrainPods(node: string, pods: seq<Pod>, ghost before: Summary) returns (done: nat)
      requires At(Ready) && sum == before.(effects := before.effects + [SetUnschedulable(node, true)])
      modifies this`trace, this`sum, this`now, this`attempts
      ensures Sound() && old(trace) < trace && trace[|trace| - 1].Told?
      ensures sum.stage == Ended || (sum.stage == Moving && trace[|trace| - 1].status == Progress)
      ensures var todo := Evictables(cfg, node, pods);
              && DrainedNode(cfg, before, sum, node, todo, done)
              && (trace[|trace| - 1].status == Succeeded <==> done == |todo|)
              && |sum.tried| <= |before.tried| + Budget(|todo|, Tries(cfg.drainStallTimeout))
    {
      ghost var todo := Evictables(cfg, node, pods);
      done := 0;
      var total := CountEvictable(node, pods);
      if total == 0 {
        Tell(Succeeded, 0);
        return;
      }
      NeverSkipped(cfg, node, pods);
      var r;
      done, r := EvictAll(node, pods, total);
      DrainedFrom(cfg, before, old(sum), sum, node, todo, done, r);
      if r.Gone? {
        Tell(Succeeded, 0);
      }
    }

    /** Cordon the node, then evict every pod that may be evicted; the node is never uncordoned here. */
    method Drain(cmd: Command) returns (ghost pods: Option<seq<Pod>>, done: nat)
      requires At(Ready)
      modifies this`trace, this`sum, this`now, this`attempts
      ensures Sound() && old(trace) < trace && trace[|trace| - 1].Told?
      ensures sum.stage == Ended || (sum.stage == Moving && trace[|trace| - 1].status == Progress)
      ensures NodeDrained(cfg, cmd, trace, |old(trace)|, old(sum), sum, pods, done)
    {
      done := 0;
      var listed := Cordon(cmd.target.name);
      pods := listed;
      if listed.Some? {
        done := DrainPods(cmd.target.name, listed.value, old(sum));
        BudgetIsProduct(|Evictables(cfg, cmd.target.name, listed.value)|, Tries(cfg.drainStallTimeout));
      }
    }

    // ------------------------------------------------------------- dispatch

    /** The handler of the command's verb. */
    method Dispatch(cmd: Command) returns (ghost e: Evidence)
      requires Wired(cfg, plan) && At(Ready)
      modifies this
      ensures Sound() && old(trace) < trace && trace[|trace| - 1].Told?
      ensures sum.stage == Ended || (cmd.verb == DrainNode && sum.stage == Moving &&
          trace[|trace| - 1].status == Progress)
      ensures Achieved(cfg, plan, cmd, old(now), trace, |old(trace)|, old(sum), sum, e)
    {
      e := Nothing;
      match cmd.verb {
        case Apply =>
          var created, _, xs := ApplyManifest(cmd);
          e := ByApply(created, xs);
        case Patch =>
          var found, at := PatchTarget(cmd);
          e := ByPatch(found, at);
        case Delete =>
          var found := DeleteTarget(cmd);
          e := ByDelete(found);
        case DrainNode =>
          var pods, done := Drain(cmd);
          e := ByDrain(pods, done);
        case UncordonNode => Uncordon(cmd);
        case CertRotate =>
          var cert, issuer := RotateCertificate(cmd, now);
          e := ByRenewal(cert, issuer);
        case ClusterUpgrade => Tell(RefusedStatus, 0);
        case Other(_) => Tell(RefusedStatus, 0);
      }
    }

    /** Run a command and report every stage. */
    method HandleCommand(cmd: Command) returns (ghost e: Evidence, ghost places: seq<Place>)
      requires Wired(cfg, plan) && trace == [] && At(Start)
      modifies this
      ensures Finished(trace, cfg.dryRunFirst) ||
              (cmd.verb == DrainNode && Paused(trace, cfg.dryRunFirst))
      ensures cfg.dryRunFirst ==> AllRehearsed(trace) && DryRunsFirst(trace)
      ensures Summarised(trace, sum, cfg.dryRunFirst) && |trace| > 1 && trace[|trace| - 1].Told?
      ensures Achieved(cfg, plan, cmd, old(now), trace, 1, Summary(Ready, [], [], [], []), sum, e)
      ensures Shows(cfg, cmd, old(now), trace, e, sum.effects, places)
    {
      assert Peek(trace);
      Tell(Validating, 0);
      e := Dispatch(cmd);
      assert Peek(trace);
      if cfg.dryRunFirst {
        RehearsalsShow(trace);
      }
      places := CommandShows(cfg, plan, cmd, old(now), trace, sum, e);
    }
  }
}
