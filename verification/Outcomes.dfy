/**
 What the trace of a handled command shows, verb by verb and in plain terms: which objects were
 read and written where and with what, which pods were evicted, and why a command was refused.
 Every handled command starts with one report, so the handler's own items begin at position 1.
 */
module Outcomes {
  import opened Options
  import opened Json
  import opened Reports
  import opened Commands
  import opened Placement
  import Decimal
  import Drift
  import Redeploy

  /** A real write that took effect. */
  predicate TookEffect(item: Item) {
    && item.Asked? && item.call.Write? && !item.call.dryRun
    && (item.reply == Ok || (item.call.op.Remove? && item.reply == Missing))
  }

  /** Nothing was written but these. */
  ghost predicate OnlyWrote(t: Trace, ops: seq<Operation>) {
    forall k | 0 <= k < |t| && TookEffect(t[k]) :: t[k].call.op in ops
  }

  predicate Happened(t: Trace, op: Operation) {
    exists k | 0 <= k < |t| :: TookEffect(t[k]) && t[k].call.op == op
  }

  /** These are the writes that took effect. */
  ghost predicate Wrought(t: Trace, ops: seq<Operation>) {
    OnlyWrote(t, ops) && forall op | op in ops :: Happened(t, op)
  }

  lemma {:induction false} EffectsAreWrought(t: Trace)
    ensures Wrought(t, Effects(t))
  {
    if t != [] {
      var n := |t| - 1;
      EffectsAreWrought(t[..n]);
      forall k | 0 <= k < |t| && TookEffect(t[k]) ensures t[k].call.op in Effects(t) {
        if k < n {
          assert t[..n][k] == t[k];
        }
      }
      forall op | op in Effects(t) ensures Happened(t, op) {
        if op in Effects(t[..n]) {
          var k :| 0 <= k < n && TookEffect(t[..n][k]) && t[..n][k].call.op == op;
          assert t[k] == t[..n][k];
        } else {
          assert TookEffect(t[n]) && t[n].call.op == op;
        }
      }
    }
  }

  // ------------------------------------------------------------------ dry runs first

  /** A dry run of the operation was accepted and reported, and the write announced, right before position `k`. */
  predicate DryRunBefore(t: Trace, k: nat, op: Operation) {
    && 3 <= k <= |t|
    && t[k - 3].Asked? && t[k - 3].call == Write(op, true)
    && (t[k - 3].reply == Ok || (op.Remove? && t[k - 3].reply == Missing))
    && t[k - 2].Told? && t[k - 2].status == DryRun
    && t[k - 1].Told? && t[k - 1].status == Applying
  }

  /** Objects are created, updated, patched and deleted after a dry run; nodes and hashes are written without one. */
  ghost predicate DryRunsFirst(t: Trace) {
    forall k | 0 <= k < |t| && t[k].Asked? && t[k].call.Write? && !t[k].call.dryRun ::
      var op := t[k].call.op;
      DryRunBefore(t, k, op) <==> op.Create? || op.Update? || op.PatchWith? || op.Remove?
  }

  lemma RehearsalsShow(t: Trace)
    requires AllRehearsed(t)
    ensures DryRunsFirst(t)
  {
    forall k | 0 <= k < |t| && t[k].Asked? && t[k].call.Write? && !t[k].call.dryRun
      ensures var op := t[k].call.op;
              DryRunBefore(t, k, op) <==> op.Create? || op.Update? || op.PatchWith? || op.Remove?
    {
      assert Rehearsed(t, k);
    }
  }

  // ------------------------------------------------------- the handlers' computations

  lemma AllowsExactly(cfg: Config, plan: Plan, cmd: Command, live: Fields)
    requires Wired(cfg, plan)
    ensures plan.allows(cmd, live) <==> !Protected(cfg, cmd, live)
  {
    AllowedExactly(cfg, cmd, live);
  }

  /** The hash an object is stamped with: that of its content, none if its metadata cannot hold one. */
  function ContentHash(cfg: Config, live: Fields): string {
    match Lookup(live, ["metadata"])
    case None => cfg.digest(Drift.Stripped(live))
    case Some(Obj(_)) => cfg.digest(Drift.Stripped(live))
    case _ => ""
  }

  lemma HashExactly(cfg: Config, plan: Plan, live: Fields)
    requires Wired(cfg, plan)
    ensures plan.hashOf(live) == ContentHash(cfg, live)
  {
    RecordedExactly(cfg, live);
    assert plan.hashOf(live) == HashOf(cfg, live);
  }

  /** The object read at this point is protected by the drift policy. */
  predicate ReadProtected(cfg: Config, cmd: Command, t: Trace, at: nat) {
    && at < |t| && t[at].Asked? && t[at].call.GetObject? && t[at].reply.Found?
    && Protected(cfg, cmd, t[at].reply.live)
  }

  lemma DriftedExactly(cfg: Config, plan: Plan, cmd: Command, t: Trace, at: nat)
    requires Wired(cfg, plan)
    ensures Drifted(plan, cmd, t, at) <==> ReadProtected(cfg, cmd, t, at)
  {
    if at < |t| && t[at].Asked? && t[at].reply.Found? {
      AllowsExactly(cfg, plan, cmd, t[at].reply.live);
    }
  }

  // ---------------------------------------------------------------------- apply

  /** What is written for an object: with its stamp if there was none, over what was found otherwise. */
  function WriteOf(cfg: Config, place: Place, named: Fields, live: Option<Fields>): Operation {
    match live
    case None => Create(place, Drift.Stamped(named, cfg.digest))
    case Some(l) => Update(place, Redeploy.Updated(l, named, cfg.parse, cfg.digest))
  }

  /**
   One object of a manifest: read where its own words put it, then created there with its stamp if
   there was none, or updated over what was found there, which the policy does not protect.
   */
  ghost predicate ObjectWritten(cfg: Config, cmd: Command, obj: Fields, t: Trace, x: Rollout, place: Place) {
    var named := Named(obj, cmd.target);
    && NamedAs(obj, cmd.target, named) && PlacedAs(cfg, obj, named, cmd.target, place)
    && x.read < x.write < |t| && TookEffect(t[x.write])
    && t[x.write].call.op == WriteOf(cfg, place, named, x.live)
    && t[x.read] == Asked(GetObject(place), if x.live.None? then Missing else Found(x.live.value))
    && (x.live.Some? ==> !Protected(cfg, cmd, x.live.value))
  }

  /** An apply wrote the first objects of the manifest, one after the other, and nothing else. */
  ghost predicate ApplyOutcome(cfg: Config, cmd: Command, t: Trace, xs: seq<Rollout>, places: seq<Place>,
                               writes: seq<Operation>)
    requires t != [] && t[|t| - 1].Told?
  {
    var objs := if cmd.manifest.Some? then cmd.manifest.value else [];
    && |places| == |writes| == |xs| <= |objs| && (t[|t| - 1].status == Succeeded <==> |xs| == |objs| > 0)
    && (forall i | 0 <= i < |xs| ::
          ObjectWritten(cfg, cmd, objs[i], t, xs[i], places[i]) && t[xs[i].write].call.op == writes[i])
    && (forall i, j | 0 <= i < j < |xs| :: xs[i].write < xs[j].read)
    && OnlyWrote(t, writes)
    && (t[|t| - 1].status == RefusedStatus <==> ReadProtected(cfg, cmd, t, NextRead(1, xs)))
  }

  lemma RolledOutExactly(cfg: Config, plan: Plan, cmd: Command, obj: Fields, t: Trace, x: Rollout)
    returns (place: Place)
    requires Wired(cfg, plan) && RolledOut(plan, cmd, t, obj, x)
    ensures ObjectWritten(cfg, cmd, obj, t, x, place)
    ensures Some(t[x.write].call.op) == ApplyOperation(plan, cmd, obj, x.live)
  {
    assert plan.locate(obj, cmd.target) == Locate(cfg, obj, cmd.target);
    var l := Locate(cfg, obj, cmd.target).value;
    place := l.place;
    LocatedExactly(cfg, obj, cmd.target);
    assert plan.prepare(l.named, x.live) == Prepare(cfg, l.named, x.live);
    if x.live.Some? {
      AllowsExactly(cfg, plan, cmd, x.live.value);
    }
  }

  lemma {:induction false} AllRolledOut(cfg: Config, plan: Plan, cmd: Command, objs: seq<Fields>, t: Trace,
                                        xs: seq<Rollout>) returns (places: seq<Place>)
    requires Wired(cfg, plan) && |objs| == |xs|
    requires forall i | 0 <= i < |xs| :: RolledOut(plan, cmd, t, objs[i], xs[i])
    ensures |places| == |xs| && forall i | 0 <= i < |xs| ::
              && ObjectWritten(cfg, cmd, objs[i], t, xs[i], places[i])
              && Some(t[xs[i].write].call.op) == ApplyOperation(plan, cmd, objs[i], xs[i].live)
  {
    if xs == [] {
      places := [];
    } else {
      var n := |xs| - 1;
      var front := AllRolledOut(cfg, plan, cmd, objs[..n], t, xs[..n]);
      var last := RolledOutExactly(cfg, plan, cmd, objs[n], t, xs[n]);
      places := front + [last];
      forall i | 0 <= i < |xs|
        ensures ObjectWritten(cfg, cmd, objs[i], t, xs[i], places[i])
        ensures Some(t[xs[i].write].call.op) == ApplyOperation(plan, cmd, objs[i], xs[i].live)
      {
        if i < n {
          assert objs[..n][i] == objs[i] && xs[..n][i] == xs[i] && places[i] == front[i];
        }
      }
    }
  }

  lemma ApplyShows(cfg: Config, plan: Plan, cmd: Command, t: Trace, created: nat, xs: seq<Rollout>,
                   writes: seq<Operation>) returns (places: seq<Place>)
    requires Wired(cfg, plan) && t != [] && t[|t| - 1].Told? && Wrought(t, writes)
    requires ManifestApplied(plan, cmd, t, 1, [], writes, created, xs)
    ensures ApplyOutcome(cfg, cmd, t, xs, places, writes)
  {
    var objs := (if cmd.manifest.Some? then cmd.manifest.value else [])[..|xs|];
    places := AllRolledOut(cfg, plan, cmd, objs, t, xs);
    forall i | 0 <= i < |xs| ensures t[xs[i].write].call.op == writes[i] {
      assert Some(writes[0 + i]) == ApplyOperation(plan, cmd, objs[i], xs[i].live);
    }
    DriftedExactly(cfg, plan, cmd, t, NextRead(1, xs));
  }

  // ----------------------------------------------------------- patch and delete

  function TargetOf(cmd: Command): Place {
    Place(cmd.target.resource, Some(cmd.target.namespace), cmd.target.name)
  }

  /**
   A patch: refused for an unknown patch type or a protected object; on success the object found
   was patched, read again right after, and the hash of what was read then was sent.
   */
  ghost predicate PatchOutcome(cfg: Config, cmd: Command, t: Trace, found: Fields, at: nat)
    requires t != [] && t[|t| - 1].Told?
  {
    var status, place := t[|t| - 1].status, TargetOf(cmd);
    var op := PatchWith(place, cmd.patchType, cmd.patch);
    && (status == RefusedStatus <==>
          cmd.patchType !in ["strategic", "merge", "json"] || ReadProtected(cfg, cmd, t, 1))
    && (status != Succeeded ==> OnlyWrote(t, []))
    && (status == Succeeded ==>
          && cmd.patchType in ["strategic", "merge", "json"]
          && 1 < at && at + 1 < |t| && t[1] == Asked(GetObject(place), Found(found)) && !Protected(cfg, cmd, found)
          && TookEffect(t[at]) && t[at].call.op == op
          && t[at + 1].Asked? && t[at + 1].call == GetObject(place)
          && (match t[at + 1].reply
              case Found(now) =>
                && at + 2 < |t| && t[at + 2].Asked?
                && t[at + 2].call == Write(Restamp(place, ContentHash(cfg, now)), false)
                && OnlyWrote(t, [op, Restamp(place, ContentHash(cfg, now))])
              case _ => OnlyWrote(t, [op])))
  }

  lemma PatchShows(cfg: Config, plan: Plan, cmd: Command, t: Trace, writes: seq<Operation>, found: Fields, at: nat)
    requires Wired(cfg, plan) && |t| > 1 && t[|t| - 1].Told? && Wrought(t, writes)
    requires Patched(plan, cmd, t, 1, [], writes, found, at)
    ensures PatchOutcome(cfg, cmd, t, found, at)
  {
    DriftedExactly(cfg, plan, cmd, t, 1);
    if t[|t| - 1].status == Succeeded {
      AllowsExactly(cfg, plan, cmd, found);
      if t[at + 1].reply.Found? {
        HashExactly(cfg, plan, t[at + 1].reply.live);
      }
    }
  }

  /** A delete: refused for a protected object; on success it was removed, or was not there. */
  ghost predicate DeleteOutcome(cfg: Config, cmd: Command, t: Trace, found: Option<Fields>)
    requires t != [] && t[|t| - 1].Told?
  {
    var status, place := t[|t| - 1].status, TargetOf(cmd);
    && (status == RefusedStatus <==> ReadProtected(cfg, cmd, t, 1))
    && (status == Succeeded ==>
          && |t| > 1 && t[1] == Asked(GetObject(place), if found.None? then Missing else Found(found.value))
          && (found.Some? ==>
                !Protected(cfg, cmd, found.value) && Happened(t, Remove(place))))
    && OnlyWrote(t, if status == Succeeded && found.Some? then [Remove(place)] else [])
  }

  lemma DeleteShows(cfg: Config, plan: Plan, cmd: Command, t: Trace, writes: seq<Operation>, found: Option<Fields>)
    requires Wired(cfg, plan) && |t| > 1 && t[|t| - 1].Told? && Wrought(t, writes)
    requires Deleted(plan, cmd, t, 1, [], writes, found)
    ensures DeleteOutcome(cfg, cmd, t, found)
  {
    DriftedExactly(cfg, plan, cmd, t, 1);
    if t[|t| - 1].status == Succeeded && found.Some? {
      AllowsExactly(cfg, plan, cmd, found.value);
      assert Remove(TargetOf(cmd)) in writes;
    }
  }

  // ---------------------------------------------------------------------- drain

  /**
   A drain: every eviction that was asked for comes after cordoning and listing, of a listed pod
   that may go; and when it succeeds, every listed pod that may go is gone.
   */
  ghost predicate DrainOutcome(cfg: Config, cmd: Command, t: Trace, pods: Option<seq<Pod>>)
    requires t != [] && t[|t| - 1].Told?
  {
    var node := cmd.target.name;
    && (forall k | 0 <= k < |t| && t[k].Asked? && t[k].call.Evict? ::
          && k > 3 && pods.Some? && t[k].call.pod in pods.value && MayGo(cfg, node, t[k].call.pod))
    && (pods.Some? ==>
          && |t| > 4 && t[1] == Asked(GetNode(node), Ok)
          && t[2] == Asked(Write(SetUnschedulable(node, true), false), Ok)
          && t[3] == Asked(ListPods(node), Pods(pods.value)))
    && (t[|t| - 1].status == Succeeded ==>
          pods.Some? && forall p | p in pods.value && MayGo(cfg, node, p) :: WasEvicted(t, p))
    && OnlyWrote(t, [SetUnschedulable(node, true)])
  }

  /** The evictions one pod can take: one, and one every two seconds until the drain has stalled. */
  function Attempts(timeout: int): nat {
    if timeout <= 0 then 1 else (timeout + 1_999_999_999) / 2_000_000_000 + 1
  }

  ghost predicate DrainBounded(cfg: Config, cmd: Command, t: Trace, pods: Option<seq<Pod>>) {
    |Tried(t)| <= (if pods.Some? then |Evictables(cfg, cmd.target.name, pods.value)| else 0) *
                  Attempts(cfg.drainStallTimeout)
  }

  lemma BoundShows(cfg: Config, cmd: Command, t: Trace, pods: Option<seq<Pod>>, tried: nat, todo: nat)
    requires tried == |Tried(t)| && tried <= todo * Tries(cfg.drainStallTimeout)
    requires todo == if pods.Some? then |Evictables(cfg, cmd.target.name, pods.value)| else 0
    ensures DrainBounded(cfg, cmd, t, pods)
  {
    assert Tries(cfg.drainStallTimeout) == Attempts(cfg.drainStallTimeout);
  }

  predicate WasEvicted(t: Trace, p: Pod) {
    Asked(Evict(p), Ok) in t || Asked(Evict(p), Missing) in t
  }

  lemma {:induction false} EvictedHappened(t: Trace, p: Pod)
    requires p in Evicted(t)
    ensures WasEvicted(t, p)
  {
    var n := |t| - 1;
    if p in Evicted(t[..n]) {
      EvictedHappened(t[..n], p);
    }
  }

  lemma {:induction false} TriedAreAll(t: Trace, k: nat)
    requires k < |t| && t[k].Asked? && t[k].call.Evict?
    ensures t[k].call.pod in Tried(t)
    decreases |t|
  {
    var n := |t| - 1;
    if k < n {
      TriedAreAll(t[..n], k);
    }
  }

  /** An eviction that was asked for is of a listed pod that may go. */
  lemma EvictionShown(cfg: Config, node: string, t: Trace, pods: seq<Pod>, k: nat)
    requires k < |t| && t[k].Asked? && t[k].call.Evict?
    requires forall i | 0 <= i < |Tried(t)| :: Tried(t)[i] in Evictables(cfg, node, pods)
    ensures t[k].call.pod in pods && MayGo(cfg, node, t[k].call.pod)
  {
    TriedAreAll(t, k);
    NeverSkipped(cfg, node, pods);
  }

  /** When all pods to evict are gone, every listed pod that may go was evicted. */
  lemma AllGone(cfg: Config, node: string, t: Trace, pods: seq<Pod>)
    requires Evicted(t) == Evictables(cfg, node, pods)
    ensures forall p | p in pods && MayGo(cfg, node, p) :: WasEvicted(t, p)
  {
    NeverSkipped(cfg, node, pods);
    forall p | p in pods && MayGo(cfg, node, p) ensures WasEvicted(t, p) {
      EvictedHappened(t, p);
    }
  }

  lemma DrainShows(cfg: Config, cmd: Command, t: Trace, before: Summary, after: Summary, pods: Option<seq<Pod>>,
                   done: nat)
    requires |t| > 1 && t[0].Told? && t[|t| - 1].Told?
    requires before == Summary(Ready, [], [], [], [])
    requires Wrought(t, after.effects) && after.tried == Tried(t) && after.evicted == Evicted(t)
    requires NodeDrained(cfg, cmd, t, 1, before, after, pods, done)
    ensures DrainOutcome(cfg, cmd, t, pods)
  {
    var node := cmd.target.name;
    match pods
    case None =>
      assert forall k | 1 <= k < |t| :: !IsEvict(t[k]);
    case Some(listed) =>
      forall k | 0 <= k < |t| && t[k].Asked? && t[k].call.Evict?
        ensures k > 3 && t[k].call.pod in listed && MayGo(cfg, node, t[k].call.pod)
      {
        assert IsEvict(t[k]);
        EvictionShown(cfg, node, t, listed, k);
      }
      if t[|t| - 1].status == Succeeded {
        var todo := Evictables(cfg, node, listed);
        assert todo[..done] == todo;
        AllGone(cfg, node, t, listed);
      }
  }

  // -------------------------------------------------------- certificate renewal

  /** The usages of a certificate: its own if they are a list of strings and not empty, else the usual two. */
  predicate UsagesOf(cert: Fields, usages: Option<Value>) {
    var own := Lookup(cert, ["spec", "usages"]);
    if own.Some? && own.value.Arr? && own.value.items != [] && forall u | u in own.value.items :: u.Str?
    then usages == own
    else usages == Some(Arr([Str("digital signature"), Str("key encipherment")]))
  }

  /** A request to renew a certificate: named after it and the time, from its own issuer, for its own usages. */
  predicate RenewalOf(target: Target, cert: Fields, now: int, op: Operation) {
    var name := target.name + "-renew-" + Decimal.FormatInt(now / 1_000_000_000);
    && op.Create?
    && op.place == Place(Resource("cert-manager.io", "v1", "certificaterequests"), Some(target.namespace), name)
    && LookupString(op.body, ["apiVersion"]) == "cert-manager.io/v1"
    && LookupString(op.body, ["kind"]) == "CertificateRequest"
    && LookupString(op.body, ["metadata", "name"]) == name
    && LookupString(op.body, ["metadata", "namespace"]) == target.namespace
    && LookupString(op.body, ["metadata", "annotations", "cert-manager.io/certificate-name"]) == target.name
    && Lookup(op.body, ["spec", "issuerRef"]) == Lookup(cert, ["spec", "issuerRef"])
    && UsagesOf(cert, Lookup(op.body, ["spec", "usages"]))
  }

  lemma MemberAt(m: Fields, k: string, f: Fields, j: string)
    requires Get(m, k) == Some(Obj(f))
    ensures Lookup(m, [k, j]) == Get(f, j)
  {
    assert [k, j][1..] == [j];
  }

  lemma MemberBelow(m: Fields, k: string, f: Fields, j: string, g: Fields, i: string)
    requires Get(m, k) == Some(Obj(f)) && Get(f, j) == Some(Obj(g))
    ensures Lookup(m, [k, j, i]) == Get(g, i)
  {
    MemberAt(f, j, g, i);
    assert [k, j, i][1..] == [j, i];
  }

  lemma RenewalExactly(target: Target, cert: Fields, issuer: Fields, now: int)
    requires Lookup(cert, ["spec", "issuerRef"]) == Some(Obj(issuer))
    ensures RenewalOf(target, cert, now, RenewRequest(target, cert, issuer, now))
  {
    var body := RenewRequest(target, cert, issuer, now).body;
    var meta, spec := body["metadata"].fields, body["spec"].fields;
    MemberAt(body, "metadata", meta, "name");
    MemberAt(body, "metadata", meta, "namespace");
    MemberBelow(body, "metadata", meta, "annotations", meta["annotations"].fields, "cert-manager.io/certificate-name");
    MemberAt(body, "spec", spec, "issuerRef");
    MemberAt(body, "spec", spec, "usages");
  }

  lemma RenewsExactly(cfg: Config, plan: Plan, target: Target, cert: Fields, issuer: Fields, now: int)
    requires Wired(cfg, plan) && Lookup(cert, ["spec", "issuerRef"]) == Some(Obj(issuer))
    ensures RenewalOf(target, cert, now, plan.renewal(target, cert, issuer, now))
  {
    RenewalExactly(target, cert, issuer, now);
    assert plan.renewal(target, cert, issuer, now) == RenewRequest(target, cert, issuer, now);
  }

  /** A renewal: the certificate was read, and a request to renew it is all that was written, exactly on success. */
  ghost predicate RenewalOutcome(cmd: Command, now: int, t: Trace, cert: Fields, writes: seq<Operation>)
    requires t != [] && t[|t| - 1].Told?
  {
    var certificates := Resource("cert-manager.io", "v1", "certificates");
    && Wrought(t, writes)
    && if t[|t| - 1].status == Succeeded then
         && |t| > 1
         && t[1] == Asked(GetObject(Place(certificates, Some(cmd.target.namespace), cmd.target.name)), Found(cert))
         && |writes| == 1 && RenewalOf(cmd.target, cert, now, writes[0])
       else t[|t| - 1].status == Failed && writes == []
  }

  lemma RenewalShows(cfg: Config, plan: Plan, cmd: Command, now: int, t: Trace, writes: seq<Operation>,
                     cert: Fields, issuer: Fields)
    requires Wired(cfg, plan) && |t| > 1 && t[|t| - 1].Told? && Wrought(t, writes)
    requires Renewed(plan, cmd, now, t, 1, [], writes, cert, issuer)
    ensures RenewalOutcome(cmd, now, t, cert, writes)
  {
    if t[|t| - 1].status == Succeeded {
      RenewsExactly(cfg, plan, cmd.target, cert, issuer, now);
    }
  }

  // ------------------------------------------------------------------- all verbs

  /** What a handled command shows; `writes` took effect, and `places` are where an apply put its objects. */
  ghost predicate Shows(cfg: Config, cmd: Command, now: int, t: Trace, e: Evidence, writes: seq<Operation>,
                          places: seq<Place>)
    requires t != [] && t[|t| - 1].Told?
  {
    var status, node := t[|t| - 1].status, cmd.target.name;
    match cmd.verb
    case Apply => e.ByApply? && ApplyOutcome(cfg, cmd, t, e.xs, places, writes)
    case Patch => e.ByPatch? && PatchOutcome(cfg, cmd, t, e.target, e.at)
    case Delete => e.ByDelete? && DeleteOutcome(cfg, cmd, t, e.found)
    case DrainNode => e.ByDrain? && DrainOutcome(cfg, cmd, t, e.pods) && DrainBounded(cfg, cmd, t, e.pods)
    case UncordonNode => Wrought(t, if status == Succeeded then [SetUnschedulable(node, false)] else [])
    case CertRotate => e.ByRenewal? && RenewalOutcome(cmd, now, t, e.cert, writes)
    case _ => status == RefusedStatus && OnlyWrote(t, []) && forall k | 0 <= k < |t| :: !IsEvict(t[k])
  }

  lemma CommandShows(cfg: Config, plan: Plan, cmd: Command, now: int, t: Trace, after: Summary, e: Evidence)
    returns (places: seq<Place>)
    requires Wired(cfg, plan) && |t| > 1 && t[0].Told? && t[|t| - 1].Told?
    requires Summarised(t, after, cfg.dryRunFirst)
    requires Achieved(cfg, plan, cmd, now, t, 1, Summary(Ready, [], [], [], []), after, e)
    ensures Shows(cfg, cmd, now, t, e, after.effects, places)
  {
    places := [];
    var writes := after.effects;
    EffectsAreWrought(t);
    match cmd.verb
    case Apply => places := ApplyShows(cfg, plan, cmd, t, e.created, e.xs, writes);
    case Patch => PatchShows(cfg, plan, cmd, t, writes, e.target, e.at);
    case Delete => DeleteShows(cfg, plan, cmd, t, writes, e.found);
    case DrainNode =>
      DrainShows(cfg, cmd, t, Summary(Ready, [], [], [], []), after, e.pods, e.done);
      BoundShows(cfg, cmd, t, e.pods, |after.tried|,
                 if e.pods.Some? then |Evictables(cfg, cmd.target.name, e.pods.value)| else 0);
    case UncordonNode =>
    case CertRotate => RenewalShows(cfg, plan, cmd, now, t, writes, e.cert, e.issuer);
    case _ =>
      forall k | 0 <= k < |t| ensures !IsEvict(t[k]) {
        if IsEvict(t[k]) {
          TriedAreAll(t, k);
        }
      }
  }
}
