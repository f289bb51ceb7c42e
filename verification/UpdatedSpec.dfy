/**
 What the update body carries in its spec, member by member: the immutable ones of each kind are
 the live object's, a claim's request never falls below the live sizes, and a workload's template
 labels agree with the live selector.
 */
module UpdatedSpec {
  import opened Options
  import opened Json
  import opened Merge
  import opened Adopt
  import opened Drift
  import opened Specs
  import opened Redeploy
  import opened UpdatedObject

  predicate IsObject(v: Option<Value>) {
    v.Some? && v.value.Obj?
  }

  // --------------------------------------------------------- immutable members

  /** The adopted members of a spec, whatever is corrected afterwards. */
  lemma AdoptedMember(kind: string, spec: Fields, liveSpec: Fields, floor: Option<string>, parse: Parse, f: string)
    requires f in ImmutableFields(kind) && f != "resources" && f != "template"
    ensures Get(AdoptedSpec(kind, spec, liveSpec, floor, parse), f) == Get(liveSpec, f)
  {
    var w := TakeFrom(liveSpec, ImmutableFields(kind), spec);
    assert Get(w, f) == Get(liveSpec, f);
    if kind == "PersistentVolumeClaim" && floor.Some? {
      SetStaysBelow(w, REQUEST[1..], Str(floor.value), f);
    } else if kind in WORKLOADS {
      SetStaysBelow(w, TEMPLATE_LABELS[1..], Obj(LabelsIn(Lookup(w, TEMPLATE_LABELS[1..])) + SpecSelector(w)), f);
    }
  }

  lemma SentMember(live: Fields, manifest: Fields, parse: Parse, digest: Digest, f: string)
    requires var a := MergeMap(live, manifest);
             && SpecIsObject(a) && SpecIsObject(live)
             && f in ImmutableFields(Kind(a)) && f != "resources" && f != "template"
    ensures Lookup(Updated(live, manifest, parse, digest), ["spec", f]) == Lookup(live, ["spec", f])
  {
    var a, c := MergeMap(live, manifest), Updated(live, manifest, parse, digest);
    CorrectedSpec(live, manifest, parse);
    StampKeepsSpec(Corrected(live, manifest, parse), digest);
    AdoptedMember(Kind(a), a["spec"].fields, live["spec"].fields, StorageFloor(live, parse), parse, f);
    assert ["spec", f][1..] == [f];
  }

  lemma UntouchedSpec(live: Fields, manifest: Fields, parse: Parse, digest: Digest)
    requires var a := MergeMap(live, manifest);
             !SpecIsObject(a) || !SpecIsObject(live) || ImmutableFields(Kind(a)) == []
    ensures Lookup(Updated(live, manifest, parse, digest), ["spec"]) == Lookup(MergeMap(live, manifest), ["spec"])
  {
    var a := MergeMap(live, manifest);
    CorrectedSpec(live, manifest, parse);
    StampKeepsSpec(Corrected(live, manifest, parse), digest);
    if SpecIsObject(a) && SpecIsObject(live) {
      var spec := a["spec"].fields;
      SameMembers(TakeFrom(live["spec"].fields, [], spec), spec);
    }
  }

  /** An updated Service keeps the addresses it was given, absent ones included. */
  lemma UpdatedService(live: Fields, manifest: Fields, parse: Parse, digest: Digest)
    requires LookupString(MergeMap(live, manifest), ["kind"]) == "Service"
    requires IsObject(Lookup(MergeMap(live, manifest), ["spec"])) && IsObject(Lookup(live, ["spec"]))
    ensures forall f | f in ["clusterIP", "clusterIPs", "ipFamilies", "ipFamilyPolicy"] ::
              Lookup(Updated(live, manifest, parse, digest), ["spec", f]) == Lookup(live, ["spec", f])
  {
    forall f | f in ["clusterIP", "clusterIPs", "ipFamilies", "ipFamilyPolicy"]
      ensures Lookup(Updated(live, manifest, parse, digest), ["spec", f]) == Lookup(live, ["spec", f])
    {
      SentMember(live, manifest, parse, digest, f);
    }
  }

  /** An updated claim keeps its volume and where it came from, absent members included. */
  lemma UpdatedClaimFields(live: Fields, manifest: Fields, parse: Parse, digest: Digest)
    requires LookupString(MergeMap(live, manifest), ["kind"]) == "PersistentVolumeClaim"
    requires IsObject(Lookup(MergeMap(live, manifest), ["spec"])) && IsObject(Lookup(live, ["spec"]))
    ensures forall f |
              f in ["volumeName", "storageClassName", "volumeMode", "dataSource", "dataSourceRef", "selector"] ::
                Lookup(Updated(live, manifest, parse, digest), ["spec", f]) == Lookup(live, ["spec", f])
  {
    forall f | f in ["volumeName", "storageClassName", "volumeMode", "dataSource", "dataSourceRef", "selector"]
      ensures Lookup(Updated(live, manifest, parse, digest), ["spec", f]) == Lookup(live, ["spec", f])
    {
      SentMember(live, manifest, parse, digest, f);
    }
  }

  /** An updated workload keeps its selector, or its lack of one. */
  lemma UpdatedSelector(live: Fields, manifest: Fields, parse: Parse, digest: Digest)
    requires LookupString(MergeMap(live, manifest), ["kind"]) in
             ["Deployment", "StatefulSet", "DaemonSet", "ReplicaSet", "Job"]
    requires IsObject(Lookup(MergeMap(live, manifest), ["spec"])) && IsObject(Lookup(live, ["spec"]))
    ensures Lookup(Updated(live, manifest, parse, digest), ["spec", "selector"]) == Lookup(live, ["spec", "selector"])
  {
    SentMember(live, manifest, parse, digest, "selector");
  }

  /** An object of any other kind, or one without a spec on either side, gets the overlay's spec. */
  lemma UpdatedOtherKinds(live: Fields, manifest: Fields, parse: Parse, digest: Digest)
    requires || !IsObject(Lookup(MergeMap(live, manifest), ["spec"])) || !IsObject(Lookup(live, ["spec"]))
             || LookupString(MergeMap(live, manifest), ["kind"]) !in
                ["Service", "PersistentVolumeClaim", "Deployment", "StatefulSet", "DaemonSet", "ReplicaSet", "Job"]
    ensures Lookup(Updated(live, manifest, parse, digest), ["spec"]) == Lookup(MergeMap(live, manifest), ["spec"])
  {
    UntouchedSpec(live, manifest, parse, digest);
  }

  // ------------------------------------------------------- the request of a claim

  /** A size of the live claim that can be read: what it requested, or what its volume has. */
  predicate LiveSize(live: Fields, parse: Parse, s: string) {
    && parse(s).Some?
    && Some(Str(s)) in [Lookup(live, ["spec", "resources", "requests", "storage"]),
                        Lookup(live, ["status", "capacity", "storage"])]
  }

  /** A request that can be read and is no less than any live size. */
  ghost predicate Enough(v: Option<Value>, live: Fields, parse: Parse) {
    && v.Some? && v.value.Str? && parse(v.value.s).Some?
    && forall s | LiveSize(live, parse, s) :: parse(v.value.s).value >= parse(s).value
  }

  /** The floor is a live size, and no less than any. */
  lemma FloorIsLargest(live: Fields, parse: Parse)
    requires parse("") == None
    ensures match StorageFloor(live, parse)
            case None => forall s :: !LiveSize(live, parse, s)
            case Some(floor) =>
              && LiveSize(live, parse, floor) && Enough(Some(Str(floor)), live, parse)
              && (Enough(Lookup(live, REQUEST), live, parse) ==> Lookup(live, REQUEST) == Some(Str(floor)))
  {
    forall s | LiveSize(live, parse, s) ensures StorageFloor(live, parse).Some? && s != "" {
    }
  }

  lemma EnoughIsFloor(live: Fields, parse: Parse, v: Option<Value>)
    requires parse("") == None && StorageFloor(live, parse).Some?
    ensures Enough(v, live, parse) <==>
            v.Some? && v.value.Str? && AtLeast(v.value.s, StorageFloor(live, parse).value, parse)
  {
    FloorIsLargest(live, parse);
  }

  /** The clamp, at a path that is not taken from the live object. */
  lemma ClampedRequest(m: Fields, live: Fields, parse: Parse)
    requires parse("") == None
    ensures var was, sent := Lookup(m, REQUEST), Lookup(Clamped(m, live, parse), REQUEST);
            && ((forall s :: !LiveSize(live, parse, s)) || !Settable(m, REQUEST) || Enough(was, live, parse) ==>
                  sent == was)
            && ((exists s :: LiveSize(live, parse, s)) && Settable(m, REQUEST) && !Enough(was, live, parse) ==>
                  && Enough(sent, live, parse) && LiveSize(live, parse, sent.value.s)
                  && (Enough(Lookup(live, REQUEST), live, parse) ==> sent == Lookup(live, REQUEST)))
  {
    FloorIsLargest(live, parse);
    match StorageFloor(live, parse)
    case None =>
    case Some(floor) =>
      EnoughIsFloor(live, parse, Lookup(m, REQUEST));
      SettableForAny(m, REQUEST, Null, Str(floor));
      if Settable(m, REQUEST) {
        SetThenLookup(m, REQUEST, Str(floor));
      }
  }

  /** Whether the request can be written: nothing but objects on the way. */
  lemma RequestSettable(m: Fields)
    requires IsObject(Lookup(m, ["spec"]))
    ensures Settable(m, REQUEST) <==>
            Open(Lookup(m, ["spec", "resources"])) && Open(Lookup(m, ["spec", "resources", "requests"]))
  {
    SetExactly(m, REQUEST, Null);
    assert REQUEST[..1] == ["spec"] && REQUEST[..2] == ["spec", "resources"];
    assert REQUEST[..3] == ["spec", "resources", "requests"];
  }

  /** Under the spec, the body that is sent is the corrected object, and the overlay outside the adopted members. */
  lemma UnderSpec(live: Fields, manifest: Fields, parse: Parse, digest: Digest, path: Path)
    requires |path| >= 1 && path[0] == "spec"
    ensures Lookup(Updated(live, manifest, parse, digest), path) == Lookup(Corrected(live, manifest, parse), path)
    ensures Lookup(Overlaid(live, manifest), path) == Lookup(MergeMap(live, manifest), path)
  {
    var b := Corrected(live, manifest, parse);
    DivergeAt(RESOURCE_VERSION, path, 0);
    VersionElsewhere(MergeMap(live, manifest), LookupString(live, RESOURCE_VERSION), path);
    StampKeepsSpec(b, digest);
    SameStart(Stamped(b, digest), b, path);
  }

  lemma NotAdopted(m: Fields, live: Fields, path: Path)
    requires SpecIsObject(m) && SpecIsObject(live) && |path| >= 2 && path[0] == "spec"
    requires path[1] !in ImmutableFields(Kind(m))
    ensures Lookup(WithAdoptedSpec(m, live), path) == Lookup(m, path)
  {
    assert path[1..][0] == path[1];
    assert Get(TakeFrom(live["spec"].fields, ImmutableFields(Kind(m)), m["spec"].fields), path[1]) ==
           Get(m["spec"].fields, path[1]);
  }

  /**
   The request sent for a claim: the overlay's when that is enough, when no live size can be read,
   or when it cannot be written; otherwise a live size no less than any of them.
   */
  lemma UpdatedRequest(live: Fields, manifest: Fields, parse: Parse, digest: Digest)
    requires parse("") == None
    requires LookupString(MergeMap(live, manifest), ["kind"]) == "PersistentVolumeClaim"
    requires IsObject(Lookup(MergeMap(live, manifest), ["spec"])) && IsObject(Lookup(live, ["spec"]))
    ensures var a, c := MergeMap(live, manifest), Updated(live, manifest, parse, digest);
            var was := Lookup(a, ["spec", "resources", "requests", "storage"]);
            var sent := Lookup(c, ["spec", "resources", "requests", "storage"]);
            var writable := Open(Lookup(a, ["spec", "resources"])) &&
                            Open(Lookup(a, ["spec", "resources", "requests"]));
            if (exists s :: LiveSize(live, parse, s)) && writable && !Enough(was, live, parse)
            then
              && Enough(sent, live, parse) && LiveSize(live, parse, sent.value.s)
              && (var requested := Lookup(live, ["spec", "resources", "requests", "storage"]);
                  Enough(requested, live, parse) ==> sent == requested)
            else sent == was
  {
    var a, m := MergeMap(live, manifest), Overlaid(live, manifest);
    SameKind(live, manifest);
    UnderSpec(live, manifest, parse, digest, ["spec"]);
    UnderSpec(live, manifest, parse, digest, REQUEST);
    UnderSpec(live, manifest, parse, digest, ["spec", "resources"]);
    UnderSpec(live, manifest, parse, digest, ["spec", "resources", "requests"]);
    var w := WithAdoptedSpec(m, live);
    NotAdopted(m, live, REQUEST);
    NotAdopted(m, live, ["spec", "resources"]);
    NotAdopted(m, live, ["spec", "resources", "requests"]);
    RequestSettable(w);
    ClampedRequest(w, live, parse);
  }

  // --------------------------------------------------- the labels of a workload

  /** A label of the overlay's template: none if the labels are not all strings. */
  function OwnLabel(labels: Option<Value>, k: string): Option<Value> {
    match labels
    case Some(Obj(f)) => if forall j | j in f :: f[j].Str? then Get(f, k) else None
    case _ => None
  }

  /** A selector that demands labels: a non-empty object of strings. */
  predicate Demands(selector: Option<Value>) {
    IsObject(selector) && selector.value.fields != map[] &&
    forall k | k in selector.value.fields :: selector.value.fields[k].Str?
  }

  lemma LabelsSettable(m: Fields)
    requires IsObject(Lookup(m, ["spec"]))
    ensures Settable(m, TEMPLATE_LABELS) <==>
            Open(Lookup(m, ["spec", "template"])) && Open(Lookup(m, ["spec", "template", "metadata"]))
  {
    SetExactly(m, TEMPLATE_LABELS, Null);
    assert TEMPLATE_LABELS[..1] == ["spec"] && TEMPLATE_LABELS[..2] == ["spec", "template"];
    assert TEMPLATE_LABELS[..3] == ["spec", "template", "metadata"];
  }

  lemma ReconciledLabels(m: Fields)
    ensures var was, sent := Lookup(m, TEMPLATE_LABELS), Lookup(Reconciled(m), TEMPLATE_LABELS);
            var selector := Lookup(m, MATCH_LABELS);
            if Demands(selector) && Settable(m, TEMPLATE_LABELS)
            then IsObject(sent) && forall k ::
                   Get(sent.value.fields, k) ==
                   if k in selector.value.fields then Get(selector.value.fields, k) else OwnLabel(was, k)
            else sent == was
  {
    var selector := Lookup(m, MATCH_LABELS);
    if Demands(selector) {
      var labels := Obj(LabelsIn(Lookup(m, TEMPLATE_LABELS)) + selector.value.fields);
      SettableForAny(m, TEMPLATE_LABELS, Null, labels);
      if Settable(m, TEMPLATE_LABELS) {
        SetThenLookup(m, TEMPLATE_LABELS, labels);
      }
    }
  }

  /**
   The template labels sent for a workload: if the live selector demands labels and they can be
   written, those labels, and of the overlay's others all or, if some label is no string, none;
   otherwise the overlay's.
   */
  lemma UpdatedLabels(live: Fields, manifest: Fields, parse: Parse, digest: Digest)
    requires LookupString(MergeMap(live, manifest), ["kind"]) in
             ["Deployment", "StatefulSet", "DaemonSet", "ReplicaSet", "Job"]
    requires IsObject(Lookup(MergeMap(live, manifest), ["spec"])) && IsObject(Lookup(live, ["spec"]))
    ensures var a, c := MergeMap(live, manifest), Updated(live, manifest, parse, digest);
            var was := Lookup(a, ["spec", "template", "metadata", "labels"]);
            var sent := Lookup(c, ["spec", "template", "metadata", "labels"]);
            var selector := Lookup(live, ["spec", "selector", "matchLabels"]);
            var writable := Open(Lookup(a, ["spec", "template"])) && Open(Lookup(a, ["spec", "template", "metadata"]));
            if Demands(selector) && writable
            then IsObject(sent) && forall k ::
                   Get(sent.value.fields, k) ==
                   if k in selector.value.fields then Get(selector.value.fields, k) else OwnLabel(was, k)
            else sent == was
  {
    var a, m := MergeMap(live, manifest), Overlaid(live, manifest);
    SameKind(live, manifest);
    UnderSpec(live, manifest, parse, digest, ["spec"]);
    UnderSpec(live, manifest, parse, digest, TEMPLATE_LABELS);
    UnderSpec(live, manifest, parse, digest, ["spec", "template"]);
    UnderSpec(live, manifest, parse, digest, ["spec", "template", "metadata"]);
    var w := WithAdoptedSpec(m, live);
    NotAdopted(m, live, TEMPLATE_LABELS);
    NotAdopted(m, live, ["spec", "template"]);
    NotAdopted(m, live, ["spec", "template", "metadata"]);
    LiveSelector(m, live);
    LabelsSettable(w);
    ReconciledLabels(w);
  }

  lemma LiveSelector(m: Fields, live: Fields)
    requires SpecIsObject(m) && SpecIsObject(live) && Kind(m) in WORKLOADS
    ensures Lookup(WithAdoptedSpec(m, live), MATCH_LABELS) == Lookup(live, MATCH_LABELS)
  {
    assert Get(WithAdoptedSpec(m, live)["spec"].fields, "selector") == Get(live["spec"].fields, "selector");
  }
}
