/** What an update body promises: hashes, sizes, selectors, and every path the agent does not write. */
module UpdatedObject {
  import opened Options
  import opened Json
  import opened Merge
  import opened Adopt
  import opened Drift
  import opened Specs
  import opened Redeploy

  // ------------------------------------------------- what the update leaves alone

  /** The paths the agent writes itself when it updates an object of a kind. */
  function Written(kind: string): set<Path> {
    {["metadata", "resourceVersion"], ["metadata", "annotations"]}
    + match kind
      case "Service" =>
        {["spec", "clusterIP"], ["spec", "clusterIPs"], ["spec", "ipFamilies"], ["spec", "ipFamilyPolicy"]}
      case "PersistentVolumeClaim" =>
        {["spec", "volumeName"], ["spec", "storageClassName"], ["spec", "volumeMode"], ["spec", "dataSource"],
         ["spec", "dataSourceRef"], ["spec", "selector"], ["spec", "resources", "requests", "storage"]}
      case _ =>
        if kind in ["Deployment", "StatefulSet", "DaemonSet", "ReplicaSet", "Job"]
        then {["spec", "selector"], ["spec", "template", "metadata", "labels"]} else {}
  }

  lemma TakenElsewhere(m: Fields, live: Fields, path: Path)
    requires SpecIsObject(m) && SpecIsObject(live) && path != []
    requires forall f | f in ImmutableFields(Kind(m)) :: Diverge(["spec", f], path)
    requires ImmutableFields(Kind(m)) != []
    ensures Lookup(WithAdoptedSpec(m, live), path) == Lookup(m, path)
  {
    if path[0] == "spec" {
      var names := ImmutableFields(Kind(m));
      DivergeBelow(["spec", names[0]], path);
      assert ["spec", path[1]] <= path;
      assert Get(TakeFrom(live["spec"].fields, names, m["spec"].fields), path[1]) == Get(m["spec"].fields, path[1]);
      assert path[1..][0] == path[1];
    }
  }

  /** Adoption and correction write at these paths. */
  lemma WrittenCovers(kind: string)
    ensures forall f | f in ImmutableFields(kind) :: ["spec", f] in Written(kind)
    ensures kind == "PersistentVolumeClaim" ==> REQUEST in Written(kind)
    ensures kind in WORKLOADS ==> TEMPLATE_LABELS in Written(kind)
  {
  }

  lemma AdoptedElsewhere(m: Fields, live: Fields, parse: Parse, path: Path)
    requires path != [] && forall f | f in ImmutableFields(Kind(m)) :: Diverge(["spec", f], path)
    requires Kind(m) == "PersistentVolumeClaim" ==> Diverge(REQUEST, path)
    requires Kind(m) in WORKLOADS ==> Diverge(TEMPLATE_LABELS, path)
    ensures Lookup(Adopted(m, live, parse), path) == Lookup(m, path)
  {
    if SpecIsObject(m) && SpecIsObject(live) && ImmutableFields(Kind(m)) != [] {
      TakenElsewhere(m, live, path);
      var w := WithAdoptedSpec(m, live);
      if Kind(m) == "PersistentVolumeClaim" {
        if StorageFloor(live, parse).Some? {
          SetElsewhere(w, REQUEST, Str(StorageFloor(live, parse).value), path);
        }
      } else if Kind(m) in WORKLOADS {
        var selector := LookupStringMap(w, MATCH_LABELS);
        if selector.Some? {
          SetElsewhere(w, TEMPLATE_LABELS, Obj(LabelsIn(Lookup(w, TEMPLATE_LABELS)) + selector.value), path);
        }
      }
    }
  }

  lemma SameKind(live: Fields, manifest: Fields)
    ensures Kind(Overlaid(live, manifest)) == Kind(MergeMap(live, manifest))
  {
    DivergeAt(RESOURCE_VERSION, ["kind"], 0);
    VersionElsewhere(MergeMap(live, manifest), LookupString(live, RESOURCE_VERSION), ["kind"]);
  }

  lemma VersionElsewhere(m: Fields, rv: string, path: Path)
    requires path != [] && Diverge(RESOURCE_VERSION, path)
    ensures Lookup(WithResourceVersion(m, rv), path) == Lookup(m, path)
  {
    if rv == "" {
      RemoveElsewhere(m, RESOURCE_VERSION, path);
    } else {
      SetElsewhere(m, RESOURCE_VERSION, Str(rv), path);
    }
  }

  /**
   The update body on every path the agent does not write itself: the manifest's setting where it
   has one, and the live value wherever the manifest is silent.
   */
  lemma UpdatedElsewhere(live: Fields, manifest: Fields, parse: Parse, digest: Digest, path: Path)
    requires path != [] && forall w | w in Written(Kind(MergeMap(live, manifest))) :: Diverge(w, path)
    ensures Lookup(Updated(live, manifest, parse, digest), path) ==
            MergedAt(Lookup(live, path), ParentIsObject(live, path), SettingAt(manifest, path))
    ensures SettingAt(manifest, path).Unset? ==>
              Lookup(Updated(live, manifest, parse, digest), path) == Lookup(live, path)
  {
    var a, b := MergeMap(live, manifest), Corrected(live, manifest, parse);
    PathFrame(live, manifest, path);
    SameKind(live, manifest);
    WrittenCovers(Kind(a));
    assert RESOURCE_VERSION in Written(Kind(a)) && ANNOTATIONS in Written(Kind(a));
    VersionElsewhere(a, LookupString(live, RESOURCE_VERSION), path);
    AdoptedElsewhere(Overlaid(live, manifest), live, parse, path);
    var ann := match GetAnnotations(b) case Some(f) => f case None => map[];
    SetElsewhere(b, ANNOTATIONS, Obj(ann[HASH_ANNOTATION := Str(digest(Stripped(b)))]), path);
  }

  /**
   An annotation of the overlay is sent as it is exactly when it is a string and every other
   annotation can be read as one; otherwise it is lost, or a null becomes an empty string.
   */
  lemma UpdatedAnnotation(live: Fields, manifest: Fields, parse: Parse, digest: Digest, k: string)
    requires MetaIsObject(MergeMap(live, manifest)) && k != HASH_ANNOTATION
    ensures var sent := Annotations(Updated(live, manifest, parse, digest));
            var wanted := Annotations(MergeMap(live, manifest));
            && sent.Some? && sent.value.Obj?
            && (match wanted
                case Some(Obj(f)) =>
                  var readable := forall j | j in f :: f[j].Str? || f[j].Null?;
                  && (Get(sent.value.fields, k) == Get(f, k) <==> k !in f || (f[k].Str? && readable))
                  && (k in f && f[k].Null? && readable ==> Get(sent.value.fields, k) == Some(Str("")))
                  && (!readable ==> k !in sent.value.fields)
                case _ => k !in sent.value.fields)
  {
    UpdatedMeta(live, manifest, parse, digest);
  }

  /** The update carries the live object's resource version, whatever the manifest says, and the hash of its content. */
  lemma UpdatedVersionAndHash(live: Fields, manifest: Fields, parse: Parse, digest: Digest)
    requires MetaIsObject(MergeMap(live, manifest))
    ensures var c, rv := Updated(live, manifest, parse, digest), LookupString(live, ["metadata", "resourceVersion"]);
            && Lookup(c, ["metadata", "resourceVersion"]) == (if rv == "" then None else Some(Str(rv)))
            && Lookup(c, ["metadata", "annotations", "k8s-agent.io/last-applied-hash"]) ==
               Some(Str(digest(Stripped(Corrected(live, manifest, parse)))))
  {
    var c := Updated(live, manifest, parse, digest);
    SentVersion(live, manifest, parse, digest);
    assert ["metadata", "resourceVersion"][1..] == ["resourceVersion"];
    UpdatedMeta(live, manifest, parse, digest);
    AnnotationsAt(c);
    assert ANNOTATIONS + [HASH_ANNOTATION] == ["metadata", "annotations", "k8s-agent.io/last-applied-hash"];
  }

  /** A manifest that names its object leaves metadata that is an object. */
  lemma NamedHasMetadata(live: Fields, manifest: Fields)
    requires LookupString(manifest, ["metadata", "name"]) != ""
    ensures MetaIsObject(MergeMap(live, manifest))
  {
    MergeAt(live, manifest, "metadata");
  }

  // ------------------------------------------------------------- what it promises

  lemma StampKeepsSpec(m: Fields, digest: Digest)
    ensures Get(Stamped(m, digest), "spec") == Get(m, "spec")
  {
    StampedShape(m, digest);
  }

  /** After an apply, the stored object passes the drift check exactly when the stamp kept its annotations. */
  lemma AppliedObjectMatches(live: Fields, manifest: Fields, parse: Parse, digest: Digest)
    requires CollisionFree(digest) || Stampable(Corrected(live, manifest, parse))
    ensures forall stored | SameButVolatile(stored, Updated(live, manifest, parse, digest)) ::
              Check(stored, RecordedHash(stored), digest) <==> Stampable(Corrected(live, manifest, parse))
    ensures MetaIsObject(MergeMap(live, manifest)) ==>
              (Stampable(Corrected(live, manifest, parse)) <==> Legible(Annotations(MergeMap(live, manifest))))
  {
    var b := Corrected(live, manifest, parse);
    forall stored | SameButVolatile(stored, Stamped(b, digest))
      ensures Check(stored, RecordedHash(stored), digest) <==> Stampable(b)
    {
      if Stampable(b) {
        StoredObjectMatches(b, stored, digest);
      } else {
        StampThenCheck(b, digest);
        VolatileIsNotContent(stored, Stamped(b, digest));
        StrippedExact(stored, Stamped(b, digest));
      }
    }
    if MetaIsObject(MergeMap(live, manifest)) {
      CorrectedShape(live, manifest, parse);
    }
  }

  /**
   The request of an updated claim: at least the live request and the live capacity exactly when
   it can be written, and the manifest's own text whenever that was enough.
   */
  lemma UpdatedClaimNeverShrinks(live: Fields, manifest: Fields, parse: Parse, digest: Digest)
    requires parse("") == None && Kind(MergeMap(live, manifest)) == "PersistentVolumeClaim"
    requires SpecIsObject(MergeMap(live, manifest)) && SpecIsObject(live) && StorageFloor(live, parse).Some?
    ensures var c, spec, floor := Updated(live, manifest, parse, digest), MergeMap(live, manifest)["spec"].fields,
                                  StorageFloor(live, parse).value;
            && SpecIsObject(c)
            && (Settable(spec, REQUEST[1..]) <==> AtLeast(LookupString(c["spec"].fields, REQUEST[1..]), floor, parse))
            && (AtLeast(LookupString(spec, REQUEST[1..]), floor, parse) ==>
                  LookupString(c["spec"].fields, REQUEST[1..]) == LookupString(spec, REQUEST[1..]))
    ensures forall p | p in [REQUEST, CAPACITY] && Quantity(live, p, parse).Some? ::
              AtLeast(StorageFloor(live, parse).value, Quantity(live, p, parse).value, parse)
  {
    CorrectedSpec(live, manifest, parse);
    StampKeepsSpec(Corrected(live, manifest, parse), digest);
    ClaimFloor(MergeMap(live, manifest)["spec"].fields, live["spec"].fields, StorageFloor(live, parse).value, parse);
  }

  lemma ClaimFloor(spec: Fields, liveSpec: Fields, floor: string, parse: Parse)
    requires parse("") == None && parse(floor).Some?
    ensures var t := AdoptedSpec("PersistentVolumeClaim", spec, liveSpec, Some(floor), parse);
            && (Settable(spec, REQUEST[1..]) <==> AtLeast(LookupString(t, REQUEST[1..]), floor, parse))
            && (AtLeast(LookupString(spec, REQUEST[1..]), floor, parse) ==>
                  LookupString(t, REQUEST[1..]) == LookupString(spec, REQUEST[1..]))
  {
    var p, w := REQUEST[1..], TakeFrom(liveSpec, PVC_FIELDS, spec);
    assert Get(w, "resources") == Get(spec, "resources");
    SameStart(w, spec, p);
    SettableSame(w, spec, p);
    ClampAtPromises(w, p, floor, parse);
  }

  /**
   An updated workload: its selector is the live one; the template carries the selector's labels
   exactly when its label path can be written; and the template's other labels survive exactly
   when they were all strings (or there were no others).
   */
  lemma UpdatedWorkloadMatches(live: Fields, manifest: Fields, parse: Parse, digest: Digest)
    requires Kind(MergeMap(live, manifest)) in WORKLOADS
    requires SpecIsObject(MergeMap(live, manifest)) && SpecIsObject(live)
    ensures SpecIsObject(Updated(live, manifest, parse, digest))
    ensures var spec, sent, liveSpec := MergeMap(live, manifest)["spec"].fields,
                                        Updated(live, manifest, parse, digest)["spec"].fields, live["spec"].fields;
            && Get(sent, "selector") == Get(liveSpec, "selector")
            && (SpecSelector(liveSpec) != map[] ==>
                Relabelled(spec, sent, TEMPLATE_LABELS[1..], SpecSelector(liveSpec)))
  {
    CorrectedSpec(live, manifest, parse);
    StampKeepsSpec(Corrected(live, manifest, parse), digest);
    WorkloadSpec(Kind(MergeMap(live, manifest)), MergeMap(live, manifest)["spec"].fields, live["spec"].fields,
                 StorageFloor(live, parse), parse);
  }

  lemma WorkloadSpec(kind: string, spec: Fields, liveSpec: Fields, floor: Option<string>, parse: Parse)
    requires kind in WORKLOADS
    ensures var sent := AdoptedSpec(kind, spec, liveSpec, floor, parse);
            && Get(sent, "selector") == Get(liveSpec, "selector")
            && (SpecSelector(liveSpec) != map[] ==>
                Relabelled(spec, sent, TEMPLATE_LABELS[1..], SpecSelector(liveSpec)))
  {
    var w := TakeFrom(liveSpec, WORKLOAD_FIELDS, spec);
    assert Get(w, "selector") == Get(liveSpec, "selector") && Get(w, "template") == Get(spec, "template");
    SameSelector(w, liveSpec);
    assert AdoptedSpec(kind, spec, liveSpec, floor, parse) == ReconciledSpec(w);
    RelabelledTemplate(spec, w, TEMPLATE_LABELS[1..], SpecSelector(liveSpec));
  }

  lemma RelabelledTemplate(spec: Fields, w: Fields, path: Path, selector: Fields)
    requires |path| > 1 && path[0] != "selector" && Get(w, path[0]) == Get(spec, path[0]) && AllStrings(selector)
    ensures var sent := RelabelAt(w, path, selector);
            Get(sent, "selector") == Get(w, "selector") && Relabelled(spec, sent, path, selector)
  {
    SameStart(w, spec, path);
    SettableSame(w, spec, path);
    SetStaysBelow(w, path, Obj(LabelsIn(Lookup(w, path)) + selector), "selector");
    RelabelAtPromises(w, path, selector);
  }

  lemma SettableSame(a: Fields, b: Fields, path: Path)
    requires path != [] && Get(a, path[0]) == Get(b, path[0])
    ensures Settable(a, path) == Settable(b, path)
  {
  }
}
