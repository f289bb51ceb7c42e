/**
 Commands and what a handler leaves behind: what it asks of the API server and what it reports,
 in one trace, and what the trace of each verb amounts to. The Helm verbs are not part of this model.
 */
module Commands {
  import opened Options
  import opened Json
  import opened Reports
  import Drift
  import Adopt
  import Redeploy
  import Decimal

  // ------------------------------------------------------------- vocabulary

  datatype Verb = Apply | Patch | Delete | DrainNode | UncordonNode | CertRotate | ClusterUpgrade | Other(name: string)

  datatype Resource = Resource(group: string, version: string, name: string)

  datatype Target = Target(resource: Resource, namespace: string, name: string)

  /** A command with its payload already decoded; `manifest` is None when decoding failed. */
  datatype Command = Command(
    verb: Verb, target: Target, manifest: Option<seq<Fields>>, patch: string, patchType: string,
    expectedHash: string, override: bool)

  datatype DriftPolicy = DriftRefuse | DriftOverwrite | DriftOverwriteWithApproval

  /** How discovery maps an object's kind to a resource. */
  datatype Mapping = Match(resource: Resource, namespaced: bool) | NoMatch | MappingFailed

  datatype Config = Config(
    dryRunFirst: bool, policy: DriftPolicy, protectedNamespaces: set<string>, drainStallTimeout: int,
    mapping: Fields -> Mapping, parse: Adopt.Parse, digest: Drift.Digest)

  datatype Pod = Pod(namespace: string, name: string, node: string, mirror: bool, owners: seq<(string, string)>)

  /** Where an object lives; cluster-scoped objects have no namespace. */
  datatype Place = Place(resource: Resource, namespace: Option<string>, name: string)

  datatype Operation =
    | Create(place: Place, body: Fields)
    | Update(place: Place, body: Fields)
    | PatchWith(place: Place, patchType: string, patch: string)
    | Remove(place: Place)
    | Restamp(place: Place, hash: string)
    | SetUnschedulable(node: string, value: bool)

  datatype Call =
    | GetObject(place: Place)
    | GetNode(node: string)
    | ListPods(node: string)
    | Write(op: Operation, dryRun: bool)
    | Evict(pod: Pod)

  datatype Reply = Found(live: Fields) | Missing | Ok | Pods(pods: seq<Pod>) | Error

  datatype Item = Told(status: Status, progress: int) | Asked(call: Call, reply: Reply)

  type Trace = seq<Item>

  // --------------------------------------------------------- report grammar

  datatype Stage = Start | Ready | Dried | Writing | Moving | Ended | Broken

  /** One report: validating, then dry-run/applying pairs or progress, then one terminal report. */
  function After(stage: Stage, status: Status, dryRunFirst: bool): Stage {
    match (stage, status)
    case (Start, Validating) => Ready
    case (Ready, DryRun) => if dryRunFirst then Dried else Broken
    case (Writing, DryRun) => if dryRunFirst then Dried else Broken
    case (Dried, Applying) => Writing
    case (Ready, Applying) => if dryRunFirst then Broken else Writing
    case (Writing, Applying) => if dryRunFirst then Broken else Writing
    case (Ready, Progress) => Moving
    case (Moving, Progress) => Moving
    case (Ready, s) => if IsTerminal(s) then Ended else Broken
    case (Writing, s) => if IsTerminal(s) then Ended else Broken
    case (Moving, s) => if IsTerminal(s) then Ended else Broken
    case _ => Broken
  }

  /** Where the reports of a trace have got to. */
  function Scan(t: Trace, dryRunFirst: bool): Stage {
    if t == [] then Start
    else
      var stage := Scan(t[..|t| - 1], dryRunFirst);
      match t[|t| - 1]
      case Told(status, _) => After(stage, status, dryRunFirst)
      case Asked(_, _) => stage
  }

  predicate Negative(item: Item) {
    item.Told? && (item.status == Failed || item.status == RefusedStatus)
  }

  /** The writes that took effect, in order. */
  function Effects(t: Trace): seq<Operation> {
    if t == [] then []
    else
      Effects(t[..|t| - 1]) +
      match t[|t| - 1]
      case Asked(Write(op, false), reply) => if Accepted(op, reply) then [op] else []
      case _ => []
  }

  /** The pods an eviction was asked for, in order, one entry per attempt. */
  function Tried(t: Trace): seq<Pod> {
    if t == [] then []
    else
      Tried(t[..|t| - 1]) +
      match t[|t| - 1]
      case Asked(Evict(pod), _) => [pod]
      case _ => []
  }

  /** The pods whose eviction succeeded (or that were gone already), in order. */
  function Evicted(t: Trace): seq<Pod> {
    if t == [] then []
    else
      Evicted(t[..|t| - 1]) +
      match t[|t| - 1]
      case Asked(Evict(pod), reply) => if reply == Ok || reply == Missing then [pod] else []
      case _ => []
  }

  /** The percentages reported, in order. */
  function ProgressLog(t: Trace): seq<int> {
    if t == [] then []
    else
      ProgressLog(t[..|t| - 1]) +
      match t[|t| - 1]
      case Told(Progress, percent) => [percent]
      case _ => []
  }

  /** A delete of something already gone counts as done. */
  predicate Accepted(op: Operation, reply: Reply) {
    reply == Ok || (op.Remove? && reply == Missing)
  }

  /** Item `i` is a real write that was accepted. */
  predicate Wrote(t: Trace, i: nat, op: Operation) {
    i < |t| && t[i].Asked? && t[i].call == Write(op, false) && Accepted(op, t[i].reply)
  }

  /** Cordoning and re-stamping the hash are the writes that need no dry run. */
  predicate NeedsDryRun(op: Operation) {
    !op.SetUnschedulable? && !op.Restamp?
  }

  /** If item `i` is a real write: it was rehearsed right before, exactly when such a write needs it. */
  predicate Rehearsed(t: Trace, i: nat)
    requires i < |t|
  {
    t[i].Asked? && t[i].call.Write? && !t[i].call.dryRun ==>
      (JustRehearsed(t[..i], t[i].call.op) <==> NeedsDryRun(t[i].call.op))
  }

  /** The trace ends with a successful dry run of the operation and the reports of both steps. */
  predicate JustRehearsed(t: Trace, op: Operation) {
    var n := |t|;
    && n >= 3
    && t[n - 3].Asked? && t[n - 3].call == Write(op, true) && Accepted(op, t[n - 3].reply)
    && t[n - 2].Told? && t[n - 2].status == DryRun
    && t[n - 1].Told? && t[n - 1].status == Applying
  }

  predicate AllRehearsed(t: Trace) {
    forall i | 0 <= i < |t| :: Rehearsed(t, i)
  }

  // ---------------------------------------------------------------- objects

  function WithDefault(obj: Fields, path: Path, value: string): Fields
    requires path != []
  {
    if LookupString(obj, path) != "" then obj
    else if value == "" then RemoveNested(obj, path)
    else SetOrKeep(obj, path, Str(value))
  }

  /** The manifest object with its name and namespace defaulted from the command target. */
  function Named(obj: Fields, target: Target): Fields {
    WithDefault(WithDefault(obj, ["metadata", "name"], target.name), ["metadata", "namespace"], target.namespace)
  }

  /** The resource an object belongs to: by discovery, else by the command target, else none. */
  function PlaceOf(cfg: Config, obj: Fields, target: Target): Option<Place> {
    var ns, name := LookupString(obj, ["metadata", "namespace"]), LookupString(obj, ["metadata", "name"]);
    match cfg.mapping(obj)
    case Match(resource, namespaced) => Some(Place(resource, if namespaced then Some(ns) else None, name))
    case MappingFailed => None
    case NoMatch =>
      if target.resource.name != "" && target.resource.version != ""
      then Some(Place(target.resource, Some(ns), name)) else None
  }

  function TargetPlace(target: Target): Place {
    Place(target.resource, Some(target.namespace), target.name)
  }

  /** Whether a command may overwrite a live object, given the drift policy. */
  predicate MayOverwrite(cfg: Config, cmd: Command, live: Fields) {
    || cmd.expectedHash == ""
    || Drift.Check(live, cmd.expectedHash, cfg.digest)
    || cfg.policy == DriftOverwrite
    || (cfg.policy == DriftOverwriteWithApproval && cmd.override)
  }

  /** A manifest object with its defaults and where it goes. */
  datatype Located = Located(place: Place, named: Fields)

  function Locate(cfg: Config, obj: Fields, target: Target): Option<Located> {
    var named := Named(obj, target);
    match PlaceOf(cfg, named, target)
    case None => None
    case Some(place) => Some(Located(place, named))
  }

  /** The body to send: the stamped manifest for a new object, the update body for a live one. */
  function Prepare(cfg: Config, named: Fields, live: Option<Fields>): Fields {
    match live
    case None => Drift.Stamped(named, cfg.digest)
    case Some(l) => Redeploy.Updated(l, named, cfg.parse, cfg.digest)
  }

  /** The computations the handlers are made of, by name. */
  datatype Plan = Plan(
    locate: (Fields, Target) -> Option<Located>,
    prepare: (Fields, Option<Fields>) -> Fields,
    allows: (Command, Fields) -> bool,
    hashOf: Fields -> string,
    renewal: (Target, Fields, Fields, int) -> Operation)

  /** The hash annotation a stamp leaves on an object. */
  function HashOf(cfg: Config, live: Fields): string {
    Drift.RecordedHash(Drift.Stamped(live, cfg.digest))
  }

  ghost predicate Wired(cfg: Config, plan: Plan) {
    && (forall obj, target {:trigger Locate(cfg, obj, target)} :: plan.locate(obj, target) == Locate(cfg, obj, target))
    && (forall named, live {:trigger Prepare(cfg, named, live)} ::
        plan.prepare(named, live) == Prepare(cfg, named, live))
    && (forall cmd, live {:trigger MayOverwrite(cfg, cmd, live)} ::
        plan.allows(cmd, live) == MayOverwrite(cfg, cmd, live))
    && (forall live {:trigger HashOf(cfg, live)} :: plan.hashOf(live) == HashOf(cfg, live))
    && (forall target, cert, issuer, now {:trigger RenewRequest(target, cert, issuer, now)} ::
          plan.renewal(target, cert, issuer, now) == RenewRequest(target, cert, issuer, now))
  }

  /** What a successful apply writes for one object. */
  function ApplyOperation(plan: Plan, cmd: Command, obj: Fields, live: Option<Fields>): Option<Operation> {
    match plan.locate(obj, cmd.target)
    case None => None
    case Some(l) =>
      var body := plan.prepare(l.named, live);
      Some(if live.None? then Create(l.place, body) else Update(l.place, body))
  }

  datatype Outcome = Created | Updated | Stopped

  /** An eviction attempt: how long the call takes, how much the wait oversleeps, whether the context ends. */
  datatype Pace = Pace(call: nat, oversleep: nat, cancelled: bool)

  /** Looking at a trace as a whole; the handlers below only need its last steps. */
  ghost predicate Peek(t: Trace) {
    true
  }

  /** What is kept about a trace: where its reports are, and what was done. */
  datatype Summary = Summary(
    stage: Stage, effects: seq<Operation>, tried: seq<Pod>, evicted: seq<Pod>, progress: seq<int>)

  ghost predicate Summarised(t: Trace, s: Summary, dryRunFirst: bool) {
    && s == Summary(Scan(t, dryRunFirst), Effects(t), Tried(t), Evicted(t), ProgressLog(t))
    && (dryRunFirst ==> AllRehearsed(t))
  }

  /** One more item. */
  function Extend(s: Summary, item: Item, dryRunFirst: bool): Summary {
    match item
    case Told(status, percent) =>
      s.(stage := After(s.stage, status, dryRunFirst),
         progress := if status == Progress then s.progress + [percent] else s.progress)
    case Asked(Write(op, false), reply) =>
      s.(effects := if Accepted(op, reply) then s.effects + [op] else s.effects)
    case Asked(Evict(pod), reply) =>
      s.(tried := s.tried + [pod], evicted := if reply == Ok || reply == Missing then s.evicted + [pod] else s.evicted)
    case _ => s
  }

  lemma Grows(t: Trace, item: Item, s: Summary, dryRunFirst: bool)
    requires Summarised(t, s, dryRunFirst)
    requires dryRunFirst ==> Rehearsed(t + [item], |t|)
    ensures Summarised(t + [item], Extend(s, item, dryRunFirst), dryRunFirst)
  {
    assert (t + [item])[..|t|] == t;
    if dryRunFirst {
      forall i | 0 <= i < |t + [item]| ensures Rehearsed(t + [item], i) {
        assert i < |t| ==> Rehearsed(t, i) && (t + [item])[..i] == t[..i];
      }
    }
  }

  // ---------------------------------------------------- what a command achieves

  /** What a handler found out on the way. */
  datatype Evidence =
    | Nothing
    | ByApply(created: nat, xs: seq<Rollout>)
    | ByPatch(target: Fields, at: nat)
    | ByDelete(found: Option<Fields>)
    | ByDrain(pods: Option<seq<Pod>>, done: nat)
    | ByRenewal(cert: Fields, issuer: Fields)

  /** Where an apply reads its next object: right after its last write. */
  function NextRead(from: nat, xs: seq<Rollout>): nat {
    if xs == [] then from else xs[|xs| - 1].write + 1
  }

  /** The object read at this point may not be overwritten. */
  ghost predicate Drifted(plan: Plan, cmd: Command, t: Trace, at: nat) {
    && at < |t| && t[at].Asked? && t[at].call.GetObject?
    && t[at].reply.Found? && !plan.allows(cmd, t[at].reply.live)
  }

  /**
   An apply read and wrote its objects one by one, each as its live state calls for: all of them
   when it succeeded, the ones before the failure otherwise. It is refused exactly when the next
   object it read has drifted.
   */
  ghost predicate ManifestApplied(plan: Plan, cmd: Command, t: Trace, from: nat, before: seq<Operation>,
                                  after: seq<Operation>, created: nat, xs: seq<Rollout>)
    requires t != [] && t[|t| - 1].Told?
  {
    var objs := if cmd.manifest.Some? then cmd.manifest.value else [];
    && |xs| <= |objs| && Applied(plan, cmd, t, from, objs[..|xs|], xs, before, after, created)
    && (t[|t| - 1].status == Succeeded <==> |xs| == |objs| > 0)
    && (t[|t| - 1].status == RefusedStatus <==> Drifted(plan, cmd, t, NextRead(from, xs)))
  }

  predicate PatchSupported(patchType: string) {
    patchType == "strategic" || patchType == "merge" || patchType == "json"
  }

  /** After a patch the object is read again, and the hash of what was read is sent, if anything was. */
  ghost predicate HashRecorded(plan: Plan, t: Trace, at: nat, place: Place) {
    && at < |t| && t[at].Asked? && t[at].call == GetObject(place)
    && (t[at].reply.Found? ==>
          at + 1 < |t| && t[at + 1].Asked? &&
              t[at + 1].call == Write(Restamp(place, plan.hashOf(t[at].reply.live)), false))
  }

  function Restamped(plan: Plan, t: Trace, at: nat, place: Place): seq<Operation> {
    if at + 1 < |t| && t[at].Asked? && t[at].reply.Found? && t[at + 1].Asked? && t[at + 1].reply == Ok
    then [Restamp(place, plan.hashOf(t[at].reply.live))] else []
  }

  /** A patch went to an object that may be overwritten, and the hash of what it made of it was sent. */
  ghost predicate Patched(plan: Plan, cmd: Command, t: Trace, from: nat, before: seq<Operation>, after: seq<Operation>,
                          found: Fields, at: nat)
    requires from < |t| && t[|t| - 1].Told?
  {
    var status, place := t[|t| - 1].status, TargetPlace(cmd.target);
    var op := PatchWith(place, cmd.patchType, cmd.patch);
    && (status == Succeeded ==>
          && PatchSupported(cmd.patchType)
          && t[from] == Asked(GetObject(place), Found(found)) && plan.allows(cmd, found)
          && from < at && Wrote(t, at, op) && HashRecorded(plan, t, at + 1, place)
          && after == before + [op] + Restamped(plan, t, at + 1, place))
    && (status != Succeeded ==> after == before)
    && (status == RefusedStatus <==> !PatchSupported(cmd.patchType) || Drifted(plan, cmd, t, from))
  }

  lemma PatchConcluded(plan: Plan, cmd: Command, read: Trace, t: Trace, from: nat, before: seq<Operation>,
                       after: seq<Operation>, found: Fields, at: nat)
    requires PatchSupported(cmd.patchType) && plan.allows(cmd, found) && read < t && |read| == from + 1
    requires read[from] == Asked(GetObject(TargetPlace(cmd.target)), Found(found))
    requires t[|t| - 1] in [Told(Succeeded, 0), Told(Failed, 0)]
    requires t[|t| - 1].status == Failed ==> after == before
    requires var place := TargetPlace(cmd.target);
             var op := PatchWith(place, cmd.patchType, cmd.patch);
             t[|t| - 1].status == Succeeded ==>
               && |read| <= at && Wrote(t, at, op)
               && after == before + [op] + Restamped(plan, t, at + 1, place)
               && HashRecorded(plan, t, at + 1, place)
    ensures Patched(plan, cmd, t, from, before, after, found, at)
  {
  }

  /** A delete removed an object that may be overwritten, or there was none. */
  ghost predicate Deleted(plan: Plan, cmd: Command, t: Trace, from: nat, before: seq<Operation>,
      after: seq<Operation>, found: Option<Fields>)
    requires from < |t| && t[|t| - 1].Told?
  {
    var status, place := t[|t| - 1].status, TargetPlace(cmd.target);
    && (status == Succeeded ==>
          && t[from] == Asked(GetObject(place), if found.None? then Missing else Found(found.value))
          && (found.Some? ==> plan.allows(cmd, found.value))
          && after == before + if found.None? then [] else [Remove(place)])
    && (status != Succeeded ==> after == before)
    && (status == RefusedStatus <==> Drifted(plan, cmd, t, from))
  }

  /** A renewal was requested for the certificate that was found, from its own issuer. */
  ghost predicate Renewed(plan: Plan, cmd: Command, now: int, t: Trace, from: nat, before: seq<Operation>,
      after: seq<Operation>,
                          cert: Fields, issuer: Fields)
    requires from < |t| && t[|t| - 1].Told?
  {
    && (t[|t| - 1].status == Succeeded ==>
          && t[from] == Asked(GetObject(CertificatePlace(cmd.target)), Found(cert))
          && Lookup(cert, ["spec", "issuerRef"]) == Some(Obj(issuer))
          && after == before + [plan.renewal(cmd.target, cert, issuer, now)])
    && (t[|t| - 1].status != Succeeded ==> t[|t| - 1].status == Failed && after == before)
  }

  /** What the writes of a command amount to, verb by verb, given how it ended. */
  ghost predicate Achieved(cfg: Config, plan: Plan, cmd: Command, now: int, t: Trace, from: nat,
                           before: Summary, after: Summary, e: Evidence)
    requires from < |t| && t[|t| - 1].Told?
  {
    var status, node := t[|t| - 1].status, cmd.target.name;
    match cmd.verb
    case Apply => e.ByApply? && ManifestApplied(plan, cmd, t, from, before.effects, after.effects, e.created, e.xs)
    case Patch => e.ByPatch? && Patched(plan, cmd, t, from, before.effects, after.effects, e.target, e.at)
    case Delete => e.ByDelete? && Deleted(plan, cmd, t, from, before.effects, after.effects, e.found)
    case DrainNode => e.ByDrain? && NodeDrained(cfg, cmd, t, from, before, after, e.pods, e.done)
    case UncordonNode => after.effects == before.effects + if status == Succeeded then [SetUnschedulable(node,
        false)] else []
    case CertRotate => e.ByRenewal? && Renewed(plan, cmd, now, t, from, before.effects, after.effects, e.cert, e.issuer)
    case ClusterUpgrade => status == RefusedStatus && after == before.(stage := Ended)
    case Other(_) => status == RefusedStatus && after == before.(stage := Ended)
  }

  /** The reports end with exactly one terminal report. */
  predicate Finished(t: Trace, dryRunFirst: bool) {
    Scan(t, dryRunFirst) == Ended
  }

  /** A stalled drain ends with a progress report and waits for a human. */
  predicate Paused(t: Trace, dryRunFirst: bool) {
    Scan(t, dryRunFirst) == Moving && t[|t| - 1].Told? && t[|t| - 1].status == Progress
  }

  /** A pod a drain may evict: on the node, no mirror pod, not of a daemon set, not in a protected namespace. */
  predicate MayGo(cfg: Config, node: string, p: Pod) {
    && p.node == node && !p.mirror
    && p.namespace !in cfg.protectedNamespaces
    && ("DaemonSet", "apps/v1") !in p.owners
  }

  /** The pods to evict are exactly the listed ones that may go. */
  lemma {:induction false} NeverSkipped(cfg: Config, node: string, pods: seq<Pod>)
    ensures forall p :: p in Evictables(cfg, node, pods) <==> p in pods && MayGo(cfg, node, p)
  {
    if pods != [] {
      var n := |pods| - 1;
      NeverSkipped(cfg, node, pods[..n]);
      assert pods == pods[..n] + [pods[n]];
    }
  }

  datatype Eviction = Gone | Stalled | Cancelled

  /** Attempts a single pod can take before the drain stalls, at two seconds (in nanoseconds) a retry. */
  function Tries(timeout: int): nat {
    if timeout <= 0 then 1 else (timeout + 1_999_999_999) / 2_000_000_000 + 1
  }

  /** How long that many retries wait at least. */
  function Wait(retries: nat): int {
    retries * 2_000_000_000
  }

  lemma TriesBound(k: nat, timeout: int)
    requires k > 0 ==> Wait(k - 1) < timeout
    ensures k < Tries(timeout)
  {
  }

  lemma StillPrefix<T>(a: seq<T>, b: seq<T>, c: seq<T>)
    requires a <= b && b <= c
    ensures a <= c && (a < b || b < c ==> a < c)
  {
  }

  /** The attempts that many pods can take. */
  function Budget(pods: nat, tries: nat): nat {
    if pods == 0 then 0 else Budget(pods - 1, tries) + tries
  }

  lemma {:induction false} BudgetIsProduct(pods: nat, tries: nat)
    ensures Budget(pods, tries) == pods * tries
  {
    if pods > 0 {
      BudgetIsProduct(pods - 1, tries);
    }
  }

  lemma {:induction false} BudgetGrows(done: nat, total: nat, tries: nat)
    requires done <= total
    ensures Budget(done, tries) <= Budget(total, tries)
    decreases total
  {
    if done < total {
      BudgetGrows(done, total - 1, tries);
    }
  }

  function Percent(done: nat, total: nat): nat
    requires total > 0
  {
    done * 100 / total
  }

  predicate OwnedByDaemonSet(p: Pod) {
    exists i | 0 <= i < |p.owners| :: p.owners[i] == ("DaemonSet", "apps/v1")
  }

  /** Pods a drain leaves alone. */
  predicate Skipped(cfg: Config, node: string, p: Pod) {
    p.node != node || p.mirror || OwnedByDaemonSet(p) || p.namespace in cfg.protectedNamespaces
  }

  function Evictables(cfg: Config, node: string, pods: seq<Pod>): seq<Pod> {
    if pods == [] then []
    else
      var n := |pods| - 1;
      Evictables(cfg, node, pods[..n]) + if Skipped(cfg, node, pods[n]) then [] else [pods[n]]
  }

  /** The k-th pod that is not skipped is the k-th to evict. */
  lemma {:induction false} EvictablesPrefix(cfg: Config, node: string, pods: seq<Pod>, i: nat)
    requires i < |pods|
    ensures Evictables(cfg, node, pods[..i + 1]) ==
            Evictables(cfg, node, pods[..i]) + if Skipped(cfg, node, pods[i]) then [] else [pods[i]]
    ensures Evictables(cfg, node, pods[..i + 1]) <= Evictables(cfg, node, pods)
    decreases |pods|
  {
    var n := |pods| - 1;
    assert pods[..i + 1][..i] == pods[..i];
    if i < n {
      assert pods[..n][..i + 1] == pods[..i + 1] && pods[..n][..i] == pods[..i];
      EvictablesPrefix(cfg, node, pods[..n], i);
    } else {
      assert pods[..i + 1] == pods;
    }
  }

  /** Counting the pods that are not skipped finds the next one to evict. */
  lemma NthEvictable(cfg: Config, node: string, pods: seq<Pod>, i: nat)
    requires i < |pods|
    ensures var n, todo := |Evictables(cfg, node, pods[..i])|, Evictables(cfg, node, pods);
            && |Evictables(cfg, node, pods[..i + 1])| == (if Skipped(cfg, node, pods[i]) then n else n + 1) <= |todo|
            && (!Skipped(cfg, node, pods[i]) ==> n < |todo| && todo[n] == pods[i])
  {
    EvictablesPrefix(cfg, node, pods, i);
  }

  /** The percentages after each of the first `done` evictions. */
  function Steps(done: nat, total: nat): seq<int>
    requires total > 0
  {
    if done == 0 then [] else Steps(done - 1, total) + [Percent(done, total) as int]
  }

  /** What a drain has done: the first `done` pods in order, reported one by one, and nothing else touched. */
  ghost predicate Drained(before: Summary, after: Summary, todo: seq<Pod>, done: nat, r: Eviction) {
    && done <= |todo| && todo != []
    && after.effects == before.effects
    && after.evicted == before.evicted + todo[..done]
    && before.tried <= after.tried
    && (forall k | |before.tried| <= k < |after.tried| :: after.tried[k] in todo)
    && after.progress == before.progress + Steps(done, |todo|)
        + (if r.Stalled? then [Percent(done, |todo|) as int] else [])
    && after.stage == (if r.Cancelled? then Ended else if r.Gone? && done == 0 then before.stage else Moving)
  }

  /**
   A whole drain: only pods that may be evicted were tried, the first `done` of them are gone in
   list order, progress was reported after each, and once anything was tried the node is cordoned
   and stays so.
   */
  ghost predicate DrainedNode(cfg: Config, before: Summary, after: Summary, node: string, todo: seq<Pod>, done: nat) {
    && (after.effects == before.effects || after.effects == before.effects + [SetUnschedulable(node, true)])
    && (|after.tried| > |before.tried| ==> after.effects == before.effects + [SetUnschedulable(node, true)])
    && (forall p | p in todo :: MayGo(cfg, node, p))
    && done <= |todo| && after.evicted == before.evicted + todo[..done]
    && before.tried <= after.tried && (forall k | |before.tried| <= k < |after.tried| :: after.tried[k] in todo)
    && (if todo == [] then after.progress == before.progress
        else
          || after.progress == before.progress + Steps(done, |todo|)
          || (after.stage == Moving && after.progress == before.progress + Steps(done, |todo|) + [Percent(done,
              |todo|) as int]))
  }

  predicate IsEvict(item: Item) {
    item.Asked? && item.call.Evict?
  }

  /** The node was found, cordoned and its pods were listed, in three calls from `from` on. */
  predicate Cordoned(t: Trace, from: nat, node: string, pods: seq<Pod>) {
    && from + 2 < |t| && t[from] == Asked(GetNode(node), Ok)
    && t[from + 1] == Asked(Write(SetUnschedulable(node, true), false), Ok)
    && t[from + 2] == Asked(ListPods(node), Pods(pods))
  }

  /**
   A drain, seen from the trace: without a listing it failed and evicted nothing; with one, the
   pods to evict are the evictable ones of that listing, every eviction comes after cordoning and
   listing, the drain succeeds exactly when all of them are gone, and the attempts are bounded.
   */
  ghost predicate NodeDrained(cfg: Config, cmd: Command, t: Trace, from: nat, before: Summary, after: Summary,
                              pods: Option<seq<Pod>>, done: nat)
    requires t != [] && t[|t| - 1].Told?
  {
    var node, status := cmd.target.name, t[|t| - 1].status;
    var todo := if pods.Some? then Evictables(cfg, node, pods.value) else [];
    && DrainedNode(cfg, before, after, node, todo, done)
    && |after.tried| <= |before.tried| + |todo| * Tries(cfg.drainStallTimeout)
    && (pods.None? ==> status == Failed && forall k | from <= k < |t| :: !IsEvict(t[k]))
    && (pods.Some? ==>
          && Cordoned(t, from, node, pods.value)
          && (status == Succeeded <==> done == |todo|)
          && forall k | from <= k < |t| && IsEvict(t[k]) :: k > from + 2)
  }

  lemma DrainedFrom(cfg: Config, before: Summary, start: Summary, after: Summary, node: string,
                    todo: seq<Pod>, done: nat, r: Eviction)
    requires start == before.(effects := before.effects + [SetUnschedulable(node, true)])
    requires Drained(start, after, todo, done, r)
    requires forall p | p in todo :: MayGo(cfg, node, p)
    ensures DrainedNode(cfg, before, after, node, todo, done)
    ensures r.Gone? ==> DrainedNode(cfg, before, after.(stage := Ended), node, todo, done)
  {
  }

  lemma DrainedGrows(start: Summary, before: Summary, after: Summary, todo: seq<Pod>, done: nat, r: Eviction)
    requires done < |todo| && Drained(start, before, todo, done, Gone)
    requires after.effects == before.effects && before.tried <= after.tried
    requires forall k | |before.tried| <= k < |after.tried| :: after.tried[k] == todo[done]
    requires after.evicted == before.evicted + if r.Gone? then [todo[done]] else []
    requires after.progress == before.progress + if r.Stalled? then [Percent(done, |todo|) as int] else []
    requires after.stage == match r case Gone => before.stage case Stalled => Moving case Cancelled => Ended
    ensures !r.Gone? ==> Drained(start, after, todo, done, r)
    ensures r.Gone? ==> after.evicted == start.evicted + todo[..done + 1]
    ensures start.tried <= after.tried
    ensures forall k | |start.tried| <= k < |after.tried| :: after.tried[k] in todo
  {
    assert todo[..done + 1] == todo[..done] + [todo[done]];
    forall k | |start.tried| <= k < |after.tried| ensures after.tried[k] in todo {
      if k < |before.tried| {
        assert after.tried[k] == before.tried[k];
      }
    }
  }

  lemma ProgressGrows(start: Summary, before: Summary, after: Summary, todo: seq<Pod>, done: nat)
    requires 0 < done <= |todo| && todo != []
    requires before.effects == start.effects && before.evicted == start.evicted + todo[..done]
    requires start.tried <= before.tried && forall k | |start.tried| <= k < |before.tried| :: before.tried[k] in todo
    requires before.progress == start.progress + Steps(done - 1, |todo|)
    requires before.stage == Ready || before.stage == Moving
    requires after == before.(stage := Moving, progress := before.progress + [Percent(done, |todo|) as int])
    ensures Drained(start, after, todo, done, Gone)
  {
    assert Steps(done, |todo|) == Steps(done - 1, |todo|) + [Percent(done, |todo|) as int];
  }

  function CertificatePlace(target: Target): Place {
    Place(Resource("cert-manager.io", "v1", "certificates"), Some(target.namespace), target.name)
  }

  /** The usages of a certificate when they are a list of strings, the two defaults otherwise. */
  function Usages(cert: Fields): Value {
    match Lookup(cert, ["spec", "usages"])
    case Some(Arr(items)) =>
      if items != [] && forall i | 0 <= i < |items| :: items[i].Str? then Arr(items)
      else Arr([Str("digital signature"), Str("key encipherment")])
    case _ => Arr([Str("digital signature"), Str("key encipherment")])
  }

  function RenewRequest(target: Target, cert: Fields, issuer: Fields, now: int): Operation {
    var name := target.name + "-renew-" + Decimal.FormatInt(now / 1_000_000_000);
    Create(Place(Resource("cert-manager.io", "v1", "certificaterequests"), Some(target.namespace), name), map[
      "apiVersion" := Str("cert-manager.io/v1"),
      "kind" := Str("CertificateRequest"),
      "metadata" := Obj(map[
        "name" := Str(name),
        "namespace" := Str(target.namespace),
        "annotations" := Obj(map["cert-manager.io/certificate-name" := Str(target.name)])]),
      "spec" := Obj(map["issuerRef" := Obj(issuer), "usages" := Usages(cert)])])
  }

  /** Where an object was read, what was found there, and where it was written. */
  datatype Rollout = Rollout(live: Option<Fields>, read: nat, write: nat)

  /**
   One object of a manifest: it was looked up where it belongs, what was found may be overwritten,
   and the write its state calls for was accepted later.
   */
  ghost predicate RolledOut(plan: Plan, cmd: Command, t: Trace, obj: Fields, x: Rollout) {
    var l, op := plan.locate(obj, cmd.target), ApplyOperation(plan, cmd, obj, x.live);
    && l.Some? && op.Some? && x.read < x.write && Wrote(t, x.write, op.value)
    && t[x.read] == Asked(GetObject(l.value.place), if x.live.None? then Missing else Found(x.live.value))
    && (x.live.Some? ==> plan.allows(cmd, x.live.value))
  }

  /** The reads and writes of an apply: one of each per object, in order. */
  ghost predicate Applied(plan: Plan, cmd: Command, t: Trace, from: nat, objs: seq<Fields>, xs: seq<Rollout>,
                          before: seq<Operation>, after: seq<Operation>, created: nat)
  {
    && |objs| == |xs| && |after| == |before| + |objs| && before <= after
    && (forall i | 0 <= i < |xs| ::
          && from <= xs[i].read && RolledOut(plan, cmd, t, objs[i], xs[i])
          && Some(after[|before| + i]) == ApplyOperation(plan, cmd, objs[i], xs[i].live))
    && (forall i, j | 0 <= i < j < |xs| :: xs[i].write < xs[j].read)
    && created == Absent(xs)
  }

  function Absent(xs: seq<Rollout>): nat {
    if xs == [] then 0 else Absent(xs[..|xs| - 1]) + if xs[|xs| - 1].live.None? then 1 else 0
  }

  /** Nothing that happens later takes an apply back. */
  lemma AppliedLater(plan: Plan, cmd: Command, t: Trace, t': Trace, from: nat, objs: seq<Fields>, xs: seq<Rollout>,
                     before: seq<Operation>, after: seq<Operation>, created: nat)
    requires t <= t' && Applied(plan, cmd, t, from, objs, xs, before, after, created)
    ensures Applied(plan, cmd, t', from, objs, xs, before, after, created)
  {
    forall i | 0 <= i < |xs| ensures RolledOut(plan, cmd, t', objs[i], xs[i]) {
      assert RolledOut(plan, cmd, t, objs[i], xs[i]);
    }
  }

  lemma ManifestSucceeds(plan: Plan, cmd: Command, t: Trace, t': Trace, from: nat, before: seq<Operation>,
                         after: seq<Operation>, created: nat, xs: seq<Rollout>)
    requires t' == t + [Told(Succeeded, 0)] && |t| == NextRead(from, xs)
    requires cmd.manifest.Some? && |xs| == |cmd.manifest.value| > 0
    requires Applied(plan, cmd, t, from, cmd.manifest.value[..|xs|], xs, before, after, created)
    ensures ManifestApplied(plan, cmd, t', from, before, after, created, xs)
  {
    AppliedLater(plan, cmd, t, t', from, cmd.manifest.value[..|xs|], xs, before, after, created);
  }

  lemma AppliedGrows(plan: Plan, cmd: Command, t: Trace, t': Trace, from: nat, objs: seq<Fields>, i: nat,
      xs: seq<Rollout>,
                     x: Rollout, before: seq<Operation>, after: seq<Operation>, created: nat)
    requires i < |objs| && t <= t' && from <= |t| <= x.read && RolledOut(plan, cmd, t', objs[i], x)
    requires Applied(plan, cmd, t, from, objs[..i], xs, before, after, created)
    requires Applied(plan, cmd, t', from, objs[..i], xs, before, after, created)
    ensures Applied(plan, cmd, t', from, objs[..i + 1], xs + [x], before,
                    after + [ApplyOperation(plan, cmd, objs[i], x.live).value], created + if x.live.None? then 1 else 0)
  {
    assert (xs + [x])[..i] == xs;
    forall k | 0 <= k < i ensures objs[..i + 1][k] == objs[..i][k] && (xs + [x])[k] == xs[k] && xs[k].write < |t| {
      assert RolledOut(plan, cmd, t, objs[..i][k], xs[k]);
    }
  }
}
