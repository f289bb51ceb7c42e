/**
 Updating an existing object in place, and deploying the same manifest again: exactly when the
 second update sends what the first one sent.
 */
module Redeploy {
  import opened Options
  import opened Json
  import opened Merge
  import opened Adopt
  import opened Drift
  import opened Specs

  const RESOURCE_VERSION: Path := ["metadata", "resourceVersion"]

  function WithResourceVersion(m: Fields, rv: string): Fields {
    if rv == "" then RemoveNested(m, RESOURCE_VERSION) else SetOrKeep(m, RESOURCE_VERSION, Str(rv))
  }

  /** The overlay with the live resource version, before anything is adopted. */
  function Overlaid(live: Fields, manifest: Fields): Fields {
    WithResourceVersion(MergeMap(live, manifest), LookupString(live, RESOURCE_VERSION))
  }

  function Corrected(live: Fields, manifest: Fields, parse: Parse): Fields {
    Adopted(Overlaid(live, manifest), live, parse)
  }

  /** The body of the update request. */
  function Updated(live: Fields, manifest: Fields, parse: Parse, digest: Digest): Fields {
    Stamped(Corrected(live, manifest, parse), digest)
  }

  method UpdateBody(live: Unstructured, desired: Unstructured, parse: Parse, digest: Digest)
    returns (obj: Unstructured)
    ensures fresh(obj)
    ensures obj.content == Updated(live.content, desired.content, parse, digest)
  {
    var merged := Merge.Merge(live.content, desired.content);
    obj := new Unstructured(WithResourceVersion(merged, LookupString(live.content, RESOURCE_VERSION)));
    AdoptImmutableFields(obj, live, parse);
    Stamp(obj, digest);
  }

  // ----------------------------------------------------------------- metadata

  predicate MetaIsObject(m: Fields) {
    "metadata" in m && m["metadata"].Obj?
  }

  function Annotations(m: Fields): Option<Value> {
    match Meta(m) case Some(Obj(meta)) => Get(meta, "annotations") case _ => None
  }

  lemma ResourceVersionShape(m: Fields, rv: string)
    requires MetaIsObject(m)
    ensures var r := WithResourceVersion(m, rv);
            && (forall k | k != "metadata" :: Get(r, k) == Get(m, k))
            && MetaIsObject(r)
            && (forall k | k != "resourceVersion" ::
                  Get(r["metadata"].fields, k) == Get(m["metadata"].fields, k))
  {
    assert RESOURCE_VERSION[1..] == ["resourceVersion"];
  }

  lemma AdoptionKeeps(m: Fields, live: Fields, parse: Parse, k: string)
    requires k != "spec"
    ensures Get(Adopted(m, live, parse), k) == Get(m, k)
  {
    if SpecIsObject(m) && SpecIsObject(live) {
      ImmutableFieldsAdopted(m, live, parse, k);
    }
  }

  /** Everything but the spec of the corrected object comes straight from the overlay. */
  lemma CorrectedShape(live: Fields, manifest: Fields, parse: Parse)
    requires MetaIsObject(MergeMap(live, manifest))
    ensures var a, b := MergeMap(live, manifest), Corrected(live, manifest, parse);
            && (forall k | k != "spec" && k != "metadata" :: Get(b, k) == Get(a, k))
            && MetaIsObject(b)
            && (forall k | k != "resourceVersion" ::
                  Get(b["metadata"].fields, k) == Get(a["metadata"].fields, k))
  {
    var a := MergeMap(live, manifest);
    var rv := LookupString(live, RESOURCE_VERSION);
    var p := WithResourceVersion(a, rv);
    ResourceVersionShape(a, rv);
    forall k | k != "spec" ensures Get(Adopted(p, live, parse), k) == Get(p, k) {
      AdoptionKeeps(p, live, parse, k);
    }
    assert Get(Adopted(p, live, parse), "metadata") == Get(p, "metadata");
  }

  /** Stamping keeps the annotations it can read, adds the hash, and changes nothing else. */
  lemma StampAdds(b: Fields, digest: Digest)
    requires MetaIsObject(b)
    ensures var c := Stamped(b, digest);
            && (forall k | k != "metadata" :: Get(c, k) == Get(b, k))
            && MetaIsObject(c)
            && (forall k | k != "annotations" :: Get(c["metadata"].fields, k) == Get(b["metadata"].fields, k))
            && Annotations(c) == Some(Obj(KeptIn(Annotations(b))[HASH_ANNOTATION := Str(digest(Stripped(b)))]))
  {
    StampedShape(b, digest);
    AnnotationsAt(b);
  }

  lemma SameStart(a: Fields, b: Fields, path: Path)
    requires path != [] && Get(a, path[0]) == Get(b, path[0])
    ensures Lookup(a, path) == Lookup(b, path)
  {
  }

  lemma VersionStaysBelow(m: Fields, rv: string, k: string)
    requires k != "metadata"
    ensures Get(WithResourceVersion(m, rv), k) == Get(m, k)
  {
    SetStaysBelow(m, RESOURCE_VERSION, Str(rv), k);
  }

  lemma CorrectedSpec(live: Fields, manifest: Fields, parse: Parse)
    ensures var a, b := MergeMap(live, manifest), Corrected(live, manifest, parse);
            Get(b, "spec") ==
            if SpecIsObject(a) && SpecIsObject(live)
            then Some(Obj(AdoptedSpec(Kind(a), a["spec"].fields, live["spec"].fields,
                                      StorageFloor(live, parse), parse)))
            else Get(a, "spec")
  {
    var a := MergeMap(live, manifest);
    var rv := LookupString(live, RESOURCE_VERSION);
    var p := WithResourceVersion(a, rv);
    VersionStaysBelow(a, rv, "spec");
    VersionStaysBelow(a, rv, "kind");
    SameStart(p, a, ["kind"]);
    if SpecIsObject(a) && SpecIsObject(live) {
      AdoptedBySpec(p, live, parse);
    }
  }

  function ManifestSpec(manifest: Fields): Fields {
    match Get(manifest, "spec") case Some(Obj(f)) => f case _ => map[]
  }

  function ManifestMeta(manifest: Fields): Fields {
    match Get(manifest, "metadata") case Some(Obj(f)) => f case _ => map[]
  }

  /** The metadata that is sent: the overlay's, with the live resource version and the hash. */
  lemma UpdatedMeta(live: Fields, manifest: Fields, parse: Parse, digest: Digest)
    requires MetaIsObject(MergeMap(live, manifest))
    ensures var a, b := MergeMap(live, manifest), Corrected(live, manifest, parse);
            var c := Updated(live, manifest, parse, digest);
            && (forall k | k != "metadata" :: Get(c, k) == Get(b, k))
            && MetaIsObject(c)
            && (forall k | k != "resourceVersion" && k != "annotations" ::
                  Get(c["metadata"].fields, k) == Get(a["metadata"].fields, k))
            && Annotations(c) == Some(Obj(KeptIn(Annotations(a))[HASH_ANNOTATION := Str(digest(Stripped(b)))]))
  {
    CorrectedShape(live, manifest, parse);
    var a, b := MergeMap(live, manifest), Corrected(live, manifest, parse);
    assert Get(b["metadata"].fields, "annotations") == Get(a["metadata"].fields, "annotations");
    StampAdds(b, digest);
  }

  /** The resource version that is sent is the live one, and read again it is the same. */
  lemma SentVersion(live: Fields, manifest: Fields, parse: Parse, digest: Digest)
    requires MetaIsObject(MergeMap(live, manifest))
    ensures var c, rv := Updated(live, manifest, parse, digest), LookupString(live, RESOURCE_VERSION);
            && MetaIsObject(c)
            && Get(c["metadata"].fields, "resourceVersion") == (if rv == "" then None else Some(Str(rv)))
            && LookupString(c, RESOURCE_VERSION) == rv
  {
    var a, rv := MergeMap(live, manifest), LookupString(live, RESOURCE_VERSION);
    var p := WithResourceVersion(a, rv);
    assert RESOURCE_VERSION[1..] == ["resourceVersion"];
    ResourceVersionShape(a, rv);
    AdoptionKeeps(p, live, parse, "metadata");
    CorrectedShape(live, manifest, parse);
    StampAdds(Corrected(live, manifest, parse), digest);
  }

  // -------------------------------------------------------------- annotations

  /** The annotations of a stamped object, overlaid again. */
  function Again(annotations: Option<Value>, over: Option<Value>, hash: string): Option<Value> {
    Overlay(Some(Obj(KeptIn(annotations)[HASH_ANNOTATION := Str(hash)])), over)
  }

  /** Stamping the overlay again keeps the same annotations and sees the same ones. */
  predicate AnnotationsStay(annotations: Option<Value>, over: Option<Value>) {
    var again := Again(annotations, over, "");
    && KeptIn(again) - {HASH_ANNOTATION} == KeptIn(annotations) - {HASH_ANNOTATION}
    && OthersIn(again) == OthersIn(annotations)
  }

  /** Two maps that differ in the hash only, where each holds a string, or none. */
  lemma OnlyTheHash(f: Fields, g: Fields)
    requires forall k | k != HASH_ANNOTATION :: Get(f, k) == Get(g, k)
    requires || Get(f, HASH_ANNOTATION) == Get(g, HASH_ANNOTATION)
             || forall h: Fields | h in [f, g] && HASH_ANNOTATION in h :: h[HASH_ANNOTATION].Str?
    ensures KeptIn(Some(Obj(f))) - {HASH_ANNOTATION} == KeptIn(Some(Obj(g))) - {HASH_ANNOTATION}
    ensures f - {HASH_ANNOTATION} == g - {HASH_ANNOTATION}
  {
    forall k | k != HASH_ANNOTATION ensures (k in f <==> k in g) && (k in f ==> f[k] == g[k]) {
      assert Get(f, k) == Get(g, k);
    }
    assert f - {HASH_ANNOTATION} == g - {HASH_ANNOTATION};
    assert Readable(f) <==> Readable(g);
    assert KeptIn(Some(Obj(f))) - {HASH_ANNOTATION} == KeptIn(Some(Obj(g))) - {HASH_ANNOTATION};
  }

  lemma HashDoesNotMatter(annotations: Option<Value>, over: Option<Value>, hash: string)
    ensures var x, y := Again(annotations, over, ""), Again(annotations, over, hash);
            KeptIn(x) - {HASH_ANNOTATION} == KeptIn(y) - {HASH_ANNOTATION} && OthersIn(x) == OthersIn(y)
  {
    var kept := KeptIn(annotations);
    var f, g := kept[HASH_ANNOTATION := Str("")], kept[HASH_ANNOTATION := Str(hash)];
    match over
    case Some(Obj(of)) =>
      forall k ensures Get(MergeMap(f, of), k) == Overlay(Get(f, k), Get(of, k))
        ensures Get(MergeMap(g, of), k) == Overlay(Get(g, k), Get(of, k))
      {
        MergeAt(f, of, k);
        MergeAt(g, of, k);
      }
      OnlyTheHash(MergeMap(f, of), MergeMap(g, of));
    case _ =>
      OnlyTheHash(f, g);
  }

  /** Written out: with the hash that was recorded, the second stamp starts from what the first one kept. */
  lemma StayWithHash(annotations: Option<Value>, over: Option<Value>, hash: string)
    ensures var again := Again(annotations, over, hash);
            AnnotationsStay(annotations, over) <==>
            && KeptIn(again)[HASH_ANNOTATION := Str(hash)] == KeptIn(annotations)[HASH_ANNOTATION := Str(hash)]
            && OthersIn(again) == OthersIn(annotations)
  {
    HashDoesNotMatter(annotations, over, hash);
    SameWithout(KeptIn(Again(annotations, over, hash)), KeptIn(annotations), Str(hash));
  }

  lemma SameWithout(f: Fields, g: Fields, hash: Value)
    ensures f - {HASH_ANNOTATION} == g - {HASH_ANNOTATION} <==> f[HASH_ANNOTATION := hash] == g[HASH_ANNOTATION := hash]
  {
    var without, without' := f - {HASH_ANNOTATION}, g - {HASH_ANNOTATION};
    var fh, gh := f[HASH_ANNOTATION := hash], g[HASH_ANNOTATION := hash];
    if without == without' {
      forall k ensures Get(fh, k) == Get(gh, k) {
        assert Get(without, k) == Get(without', k);
      }
      SameMembers(fh, gh);
    }
    if fh == gh {
      assert fh - {HASH_ANNOTATION} == without && gh - {HASH_ANNOTATION} == without';
    }
  }

  /** The manifest's annotations alone are all there is besides the hash, and the stamp keeps none of them. */
  predicate NoneKept(annotations: Option<Value>, over: Option<Value>) {
    var alone := Overlay(Some(Obj(map[])), over);
    KeptIn(alone) - {HASH_ANNOTATION} == map[] && OthersIn(alone) == OthersIn(annotations)
  }

  /** What an overlay leaves of the annotations it was given. */
  predicate Covered(f: Fields, of: Fields) {
    forall k | k in of ::
      match of[k]
      case Null => Get(f, k) in {None, Some(Null)}
      case Obj(_) => k in f && f[k].Obj?
      case v => Get(f, k) == Some(v)
  }

  ghost predicate ObjectStays(f: Fields, of: Fields) {
    var again := MergeMap(KeptIn(Some(Obj(f)))[HASH_ANNOTATION := Str("")], of);
    && KeptIn(Some(Obj(again))) - {HASH_ANNOTATION} == KeptIn(Some(Obj(f))) - {HASH_ANNOTATION}
    && again - {HASH_ANNOTATION} == f - {HASH_ANNOTATION}
  }

  ghost predicate ObjectAlone(f: Fields, of: Fields) {
    var alone := MergeMap(map[], of);
    && KeptIn(Some(Obj(alone))) - {HASH_ANNOTATION} == map[]
    && alone - {HASH_ANNOTATION} == f - {HASH_ANNOTATION}
  }

  lemma LegibleStays(f: Fields, of: Fields)
    requires Covered(f, of) && Legible(Some(Obj(f)))
    ensures ObjectStays(f, of)
  {
    var kept := KeptIn(Some(Obj(f)));
    var again := MergeMap(kept[HASH_ANNOTATION := Str("")], of);
    LegibleExact(Some(Obj(f)));
    forall k | k != HASH_ANNOTATION ensures Get(again, k) == Get(f, k) {
      assert Get(kept - {HASH_ANNOTATION}, k) == Get(f - {HASH_ANNOTATION}, k);
      MergeAt(kept[HASH_ANNOTATION := Str("")], of, k);
    }
    SameApart(again, f);
    MergeAt(kept[HASH_ANNOTATION := Str("")], of, HASH_ANNOTATION);
    LegibleAgain(again, f);
  }

  lemma SameApart(f: Fields, g: Fields)
    requires forall k | k != HASH_ANNOTATION :: Get(f, k) == Get(g, k)
    ensures f - {HASH_ANNOTATION} == g - {HASH_ANNOTATION}
  {
    forall k | k != HASH_ANNOTATION ensures (k in f <==> k in g) && (k in f ==> f[k] == g[k]) {
      assert Get(f, k) == Get(g, k);
    }
  }

  lemma LegibleAgain(again: Fields, f: Fields)
    requires again - {HASH_ANNOTATION} == f - {HASH_ANNOTATION} && Legible(Some(Obj(f)))
    requires HASH_ANNOTATION in again && !again[HASH_ANNOTATION].Str? ==>
               HASH_ANNOTATION in f && !f[HASH_ANNOTATION].Str? && !f[HASH_ANNOTATION].Null?
    ensures KeptIn(Some(Obj(again))) - {HASH_ANNOTATION} == KeptIn(Some(Obj(f))) - {HASH_ANNOTATION}
  {
    LegibleExact(Some(Obj(f)));
    LegibleExact(Some(Obj(again)));
    if f - {HASH_ANNOTATION} != map[] {
      forall k | k in again ensures again[k].Str? || (k == HASH_ANNOTATION && again[k].Null?) {
        if k != HASH_ANNOTATION {
          assert k in again - {HASH_ANNOTATION} && k in f - {HASH_ANNOTATION};
          assert (again - {HASH_ANNOTATION})[k] == (f - {HASH_ANNOTATION})[k];
        }
      }
    }
  }

  lemma UnreadableStays(f: Fields, of: Fields)
    requires !Readable(f)
    ensures ObjectStays(f, of) <==> ObjectAlone(f, of)
  {
    var hash: Fields := map[HASH_ANNOTATION := Str("")];
    var none: Fields := map[];
    assert KeptIn(Some(Obj(f))) == none && none[HASH_ANNOTATION := Str("")] == hash;
    forall k ensures Get(MergeMap(hash, of), k) == Overlay(Get(hash, k), Get(of, k))
      ensures Get(MergeMap(none, of), k) == Overlay(None, Get(of, k))
    {
      MergeAt(hash, of, k);
      MergeAt(none, of, k);
    }
    OnlyTheHash(MergeMap(hash, of), MergeMap(none, of));
  }

  /** A null beside the hash is read as an empty string, or removed. */
  lemma NullMoves(f: Fields, of: Fields)
    requires Covered(f, of) && Readable(f) && !Legible(Some(Obj(f)))
    ensures !ObjectStays(f, of) && !ObjectAlone(f, of)
  {
    var k :| k in f && k != HASH_ANNOTATION && f[k].Null?;
    var kept := KeptIn(Some(Obj(f)))[HASH_ANNOTATION := Str("")];
    MergeAt(kept, of, k);
    MergeAt(map[], of, k);
    assert k in f - {HASH_ANNOTATION} && (f - {HASH_ANNOTATION})[k] == Null;
    assert Get(MergeMap(kept, of), k) != Some(Null) && Get(MergeMap(map[], of), k) != Some(Null);
    NotSame(MergeMap(kept, of), f, k);
    NotSame(MergeMap(map[], of), f, k);
  }

  lemma NotSame(f: Fields, g: Fields, k: string)
    requires k != HASH_ANNOTATION && Get(f, k) != Get(g, k)
    ensures f - {HASH_ANNOTATION} != g - {HASH_ANNOTATION}
  {
    assert Get(f - {HASH_ANNOTATION}, k) == Get(f, k) && Get(g - {HASH_ANNOTATION}, k) == Get(g, k);
  }

  lemma ObjectStaysExactly(f: Fields, of: Fields)
    requires Covered(f, of)
    ensures ObjectStays(f, of) <==> Legible(Some(Obj(f))) || ObjectAlone(f, of)
  {
    if Legible(Some(Obj(f))) {
      LegibleStays(f, of);
    } else if Readable(f) {
      NullMoves(f, of);
    } else {
      UnreadableStays(f, of);
    }
  }

  /** Exactly which annotations the second stamp leaves as they are. */
  lemma StayExactly(base: Option<Value>, over: Option<Value>, annotations: Option<Value>)
    requires annotations in {Overlay(base, over), over}
    ensures AnnotationsStay(annotations, over) <==> Legible(annotations) || NoneKept(annotations, over)
  {
    match (annotations, over)
    case (Some(Obj(f)), Some(Obj(of))) =>
      OverlaidBy(base, f, of);
      ObjectStaysExactly(f, of);
    case (Some(Obj(f)), _) =>
      MergeNothing(KeptIn(annotations)[HASH_ANNOTATION := Str("")]);
      MergeNothing(map[]);
      ObjectStaysExactly(f, map[]);
    case _ =>
  }

  lemma OverlaidBy(base: Option<Value>, f: Fields, of: Fields)
    requires Some(Obj(f)) in {Overlay(base, Some(Obj(of))), Some(Obj(of))}
    ensures Covered(f, of)
  {
    if base.Some? && base.value.Obj? {
      forall k ensures Get(MergeMap(base.value.fields, of), k) == Overlay(Get(base.value.fields, k), Get(of, k)) {
        MergeAt(base.value.fields, of, k);
      }
    }
  }

  // ------------------------------------------------- the manifest without the spec

  /** The metadata that is not the manifest's to decide alone: written from the live object, and by the stamp. */
  const WRITTEN := {"resourceVersion", "annotations"}

  function Dropping(m: Fields, k: string, names: set<string>): Fields {
    if k in m && m[k].Obj? then m[k := Obj(m[k].fields - names)] else m
  }

  /** The manifest without the spec, the resource version and the annotations. */
  function OwnRest(manifest: Fields): Fields {
    Dropping(manifest - {"spec"}, "metadata", WRITTEN)
  }

  /** An overlay absorbs a part of the manifest again exactly when that part is clean. */
  lemma PartAbsorbed(base: Fields, over: Fields, names: set<string>)
    ensures MergeMap(MergeMap(base, over), over - names) == MergeMap(base, over) <==> Clean(base, over - names)
  {
    var part, m, mp := over - names, MergeMap(base, over), MergeMap(base, over - names);
    MergeIdempotent(base, part);
    forall k
      ensures Get(MergeMap(m, part), k) == Get(m, k) <==> Get(MergeMap(mp, part), k) == Get(mp, k)
    {
      MergeAt(base, over, k);
      MergeAt(base, part, k);
      MergeAt(m, part, k);
      MergeAt(mp, part, k);
    }
    if Clean(base, part) {
      SameMembers(MergeMap(m, part), m);
    }
    if MergeMap(m, part) == m {
      SameMembers(MergeMap(mp, part), mp);
    }
  }

  lemma RestMember(live: Fields, manifest: Fields, k: string)
    requires k != "spec"
    ensures var base, over, part := Get(live, k), Get(manifest, k), Get(OwnRest(manifest), k);
            Overlay(Overlay(base, over), part) == Overlay(base, over) <==> CleanAt(base, part)
  {
    var base, over := Get(live, k), Get(manifest, k);
    if k == "metadata" && over.Some? && over.value.Obj? {
      if base.Some? && base.value.Obj? {
        PartAbsorbed(base.value.fields, over.value.fields, WRITTEN);
      } else {
        PartOntoWhole(over.value.fields, WRITTEN);
      }
    } else {
      OverlayTwice(base, over);
    }
  }

  /** The overlay absorbs the rest of the manifest again exactly when that rest is clean. */
  lemma RestAbsorbed(live: Fields, manifest: Fields)
    ensures var a, rest := MergeMap(live, manifest), OwnRest(manifest);
            MergeMap(a, rest) == a <==> Clean(live, rest)
  {
    var a, rest := MergeMap(live, manifest), OwnRest(manifest);
    forall k ensures Get(MergeMap(a, rest), k) == Get(a, k) <==> CleanAt(Get(live, k), Get(rest, k)) {
      MergeAt(live, manifest, k);
      MergeAt(a, rest, k);
      if k != "spec" {
        RestMember(live, manifest, k);
      }
    }
    CleanByMember(live, rest);
    if Clean(live, rest) {
      SameMembers(MergeMap(a, rest), a);
    }
  }

  lemma MemberOverlay(a: Fields, manifest: Fields, stored: Fields, k: string)
    requires k != "spec" && k != "metadata" && Get(stored, k) == Get(a, k)
    ensures Get(MergeMap(stored, manifest), k) == Get(MergeMap(a, OwnRest(manifest)), k)
  {
    MergeAt(a, OwnRest(manifest), k);
    MergeAt(stored, manifest, k);
  }

  /** Metadata that is an object was made by a manifest whose metadata is one, or which has none. */
  lemma ManifestMetaIsObject(live: Fields, manifest: Fields)
    requires MetaIsObject(MergeMap(live, manifest))
    ensures "metadata" in manifest ==> manifest["metadata"].Obj?
  {
    MergeAt(live, manifest, "metadata");
  }

  lemma MetaOverlay(a: Fields, manifest: Fields, stored: Fields)
    requires MetaIsObject(a) && MetaIsObject(stored) && ("metadata" in manifest ==> manifest["metadata"].Obj?)
    ensures Meta(MergeMap(a, OwnRest(manifest))) ==
            Some(Obj(MergeMap(a["metadata"].fields, ManifestMeta(manifest) - WRITTEN)))
    ensures Meta(MergeMap(stored, manifest)) == Some(Obj(MergeMap(stored["metadata"].fields, ManifestMeta(manifest))))
    ensures Annotations(MergeMap(stored, manifest)) ==
            Overlay(Annotations(stored), Get(ManifestMeta(manifest), "annotations"))
  {
    MergeAt(a, OwnRest(manifest), "metadata");
    MergeAt(stored, manifest, "metadata");
    MergeAt(stored["metadata"].fields, ManifestMeta(manifest), "annotations");
    MergeNothing(a["metadata"].fields);
    MergeNothing(stored["metadata"].fields);
    var none: Fields := map[];
    assert none - WRITTEN == none;
  }

  lemma MergeNothing(m: Fields)
    ensures MergeMap(m, map[]) == m
  {
  }

  /** The stored metadata is the overlay's, apart from what the server rewrites, with the hash. */
  lemma StoredMeta(live: Fields, manifest: Fields, stored: Fields, parse: Parse, digest: Digest)
    requires MetaIsObject(MergeMap(live, manifest)) && SameButVolatile(stored, Updated(live, manifest, parse, digest))
    ensures MetaIsObject(stored)
    ensures var am, sm := MergeMap(live, manifest)["metadata"].fields, stored["metadata"].fields;
            forall k | k !in Volatile() && k != "annotations" :: Get(sm, k) == Get(am, k)
    ensures Annotations(stored) == Annotations(Updated(live, manifest, parse, digest))
  {
    UpdatedMeta(live, manifest, parse, digest);
    var sm, cm := stored["metadata"].fields, Updated(live, manifest, parse, digest)["metadata"].fields;
    forall k | k !in Volatile() ensures Get(sm, k) == Get(cm, k) {
      assert Get(sm - Volatile(), k) == Get(cm - Volatile(), k);
    }
    assert "annotations" !in Volatile() && "resourceVersion" in Volatile();
  }

  /** What was stored, overlaid again. */
  lemma SecondMeta(live: Fields, manifest: Fields, stored: Fields, parse: Parse, digest: Digest)
    requires MetaIsObject(MergeMap(live, manifest)) && SameButVolatile(stored, Updated(live, manifest, parse, digest))
    ensures MetaIsObject(stored) && MetaIsObject(MergeMap(stored, manifest))
    ensures Annotations(MergeMap(stored, manifest)) ==
            Again(Annotations(MergeMap(live, manifest)), Get(ManifestMeta(manifest), "annotations"),
                  digest(Stripped(Corrected(live, manifest, parse))))
  {
    UpdatedMeta(live, manifest, parse, digest);
    StoredMeta(live, manifest, stored, parse, digest);
    ManifestMetaIsObject(live, manifest);
    MetaOverlay(MergeMap(live, manifest), manifest, stored);
  }

  /** A clean rest of the manifest leaves the metadata as it was, apart from what the server owns. */
  lemma MetaSettles(am: Fields, n: Fields, sm: Fields)
    requires MergeMap(am, n - WRITTEN) == am
    requires forall k | k !in Volatile() && k != "annotations" :: Get(sm, k) == Get(am, k)
    requires OthersIn(Get(MergeMap(sm, n), "annotations")) == OthersIn(Get(am, "annotations"))
    ensures SameMeta(MergeMap(sm, n), am)
  {
    forall k | k !in Volatile() && k != "annotations" ensures Get(MergeMap(sm, n), k) == Get(am, k) {
      assert "resourceVersion" in Volatile();
      MergeAt(sm, n, k);
      MergeAt(am, n - WRITTEN, k);
    }
  }

  /** The overlay's annotations are legible, or they are the manifest's alone and none is kept. */
  predicate AnnotationsSettle(live: Fields, manifest: Fields) {
    var annotations := Annotations(MergeMap(live, manifest));
    Legible(annotations) || NoneKept(annotations, Get(ManifestMeta(manifest), "annotations"))
  }

  lemma SettleExactly(live: Fields, manifest: Fields)
    requires MetaIsObject(MergeMap(live, manifest))
    ensures AnnotationsSettle(live, manifest) <==>
            AnnotationsStay(Annotations(MergeMap(live, manifest)), Get(ManifestMeta(manifest), "annotations"))
  {
    var n := ManifestMeta(manifest);
    MergeAt(live, manifest, "metadata");
    if MetaIsObject(live) {
      MergeNothing(live["metadata"].fields);
      MergeAt(live["metadata"].fields, n, "annotations");
    }
    StayExactly(Annotations(live), Get(n, "annotations"), Annotations(MergeMap(live, manifest)));
  }

  // --------------------------------------------------------- the second update

  /** A clean rest, annotations and a spec that stay: the second update sends the same. */
  lemma SecondUpdate(live: Fields, manifest: Fields, stored: Fields, parse: Parse, digest: Digest)
    requires MetaIsObject(MergeMap(live, manifest)) && Clean(live, OwnRest(manifest))
    requires AnnotationsStay(Annotations(MergeMap(live, manifest)), Get(ManifestMeta(manifest), "annotations"))
    requires SameButVolatile(stored, Updated(live, manifest, parse, digest))
    requires Get(Corrected(stored, manifest, parse), "spec") == Get(stored, "spec")
    ensures SameButVolatile(Updated(stored, manifest, parse, digest), Updated(live, manifest, parse, digest))
  {
    var a, a2 := MergeMap(live, manifest), MergeMap(stored, manifest);
    var b, b2 := Corrected(live, manifest, parse), Corrected(stored, manifest, parse);
    SecondContent(live, manifest, stored, parse, digest);
    StayWithHash(Annotations(a), Get(ManifestMeta(manifest), "annotations"), digest(Stripped(b)));
    StrippedExact(b2, b);
    SecondMeta(live, manifest, stored, parse, digest);
    UpdatedMeta(live, manifest, parse, digest);
    UpdatedMeta(stored, manifest, parse, digest);
    SameOutsideVolatile(a, a2, Updated(live, manifest, parse, digest)["metadata"].fields,
                        Updated(stored, manifest, parse, digest)["metadata"].fields);
  }

  /** The second update hashes the same content. */
  lemma SecondContent(live: Fields, manifest: Fields, stored: Fields, parse: Parse, digest: Digest)
    requires MetaIsObject(MergeMap(live, manifest)) && Clean(live, OwnRest(manifest))
    requires AnnotationsStay(Annotations(MergeMap(live, manifest)), Get(ManifestMeta(manifest), "annotations"))
    requires SameButVolatile(stored, Updated(live, manifest, parse, digest))
    requires Get(Corrected(stored, manifest, parse), "spec") == Get(stored, "spec")
    ensures MetaIsObject(MergeMap(stored, manifest))
    ensures SameMeta(MergeMap(stored, manifest)["metadata"].fields, MergeMap(live, manifest)["metadata"].fields)
    ensures SameContent(Corrected(stored, manifest, parse), Corrected(live, manifest, parse))
    ensures forall k | k != "metadata" ::
              Get(Corrected(stored, manifest, parse), k) == Get(Corrected(live, manifest, parse), k)
  {
    var a, a2 := MergeMap(live, manifest), MergeMap(stored, manifest);
    RestAbsorbed(live, manifest);
    SecondMeta(live, manifest, stored, parse, digest);
    StoredMeta(live, manifest, stored, parse, digest);
    ManifestMetaIsObject(live, manifest);
    MetaOverlay(a, manifest, stored);
    HashDoesNotMatter(Annotations(a), Get(ManifestMeta(manifest), "annotations"),
                      digest(Stripped(Corrected(live, manifest, parse))));
    MetaSettles(a["metadata"].fields, ManifestMeta(manifest), stored["metadata"].fields);
    RestAgain(live, manifest, stored, parse, digest);
    CorrectedShape(live, manifest, parse);
    CorrectedShape(stored, manifest, parse);
    SameHash(a, a2, Corrected(live, manifest, parse), Corrected(stored, manifest, parse));
  }

  lemma RestAgain(live: Fields, manifest: Fields, stored: Fields, parse: Parse, digest: Digest)
    requires MetaIsObject(MergeMap(live, manifest)) && MetaIsObject(MergeMap(stored, manifest))
    requires var a := MergeMap(live, manifest); MergeMap(a, OwnRest(manifest)) == a
    requires SameButVolatile(stored, Updated(live, manifest, parse, digest))
    requires Get(Corrected(stored, manifest, parse), "spec") == Get(stored, "spec")
    ensures forall k | k != "metadata" ::
              Get(Corrected(stored, manifest, parse), k) == Get(Corrected(live, manifest, parse), k)
  {
    UpdatedMeta(live, manifest, parse, digest);
    CorrectedShape(live, manifest, parse);
    CorrectedShape(stored, manifest, parse);
    forall k | k != "metadata"
      ensures Get(Corrected(stored, manifest, parse), k) == Get(Corrected(live, manifest, parse), k)
    {
      assert Get(stored, k) == Get(Corrected(live, manifest, parse), k);
      if k != "spec" {
        MemberOverlay(MergeMap(live, manifest), manifest, stored, k);
      }
    }
  }

  /** The corrected objects have the same content when their overlays do. */
  lemma SameHash(a: Fields, a2: Fields, b: Fields, b2: Fields)
    requires MetaIsObject(a) && MetaIsObject(a2) && MetaIsObject(b) && MetaIsObject(b2)
    requires forall k | k != "metadata" :: Get(b2, k) == Get(b, k)
    requires SameMeta(a2["metadata"].fields, a["metadata"].fields)
    requires forall k | k != "resourceVersion" :: Get(b["metadata"].fields, k) == Get(a["metadata"].fields, k)
    requires forall k | k != "resourceVersion" :: Get(b2["metadata"].fields, k) == Get(a2["metadata"].fields, k)
    ensures SameContent(b2, b)
  {
    assert "resourceVersion" in Volatile();
    var am, bm, am2, bm2 := a["metadata"].fields, b["metadata"].fields, a2["metadata"].fields, b2["metadata"].fields;
    assert Get(bm, "annotations") == Get(am, "annotations") && Get(bm2, "annotations") == Get(am2, "annotations");
    assert OtherAnnotations(bm) == OtherAnnotations(am) && OtherAnnotations(bm2) == OtherAnnotations(am2);
  }

  lemma SameOutsideVolatile(a: Fields, a2: Fields, c: Fields, c2: Fields)
    requires MetaIsObject(a) && MetaIsObject(a2) && SameMeta(a2["metadata"].fields, a["metadata"].fields)
    requires forall k | k != "resourceVersion" && k != "annotations" :: Get(c, k) == Get(a["metadata"].fields, k)
    requires forall k | k != "resourceVersion" && k != "annotations" :: Get(c2, k) == Get(a2["metadata"].fields, k)
    requires Get(c, "annotations") == Get(c2, "annotations")
    ensures c2 - Volatile() == c - Volatile()
  {
    assert "resourceVersion" in Volatile();
    forall k ensures Get(c2 - Volatile(), k) == Get(c - Volatile(), k) {
      if k !in Volatile() && k != "annotations" {
        assert Get(a2["metadata"].fields, k) == Get(a["metadata"].fields, k);
      }
    }
    SameMembers(c2 - Volatile(), c - Volatile());
  }

  /** The metadata sent the second time, volatile members included. */
  lemma SameMetadata(live: Fields, manifest: Fields, parse: Parse, digest: Digest)
    requires MetaIsObject(MergeMap(live, manifest)) && Clean(live, OwnRest(manifest))
    requires var c := Updated(live, manifest, parse, digest); SameButVolatile(Updated(c, manifest, parse, digest), c)
    ensures var c := Updated(live, manifest, parse, digest); Meta(Updated(c, manifest, parse, digest)) == Meta(c)
  {
    var a, c := MergeMap(live, manifest), Updated(live, manifest, parse, digest);
    UpdatedMeta(live, manifest, parse, digest);
    SentVersion(live, manifest, parse, digest);
    SecondMeta(live, manifest, c, parse, digest);
    MetaOfSecond(c, manifest, Updated(c, manifest, parse, digest), parse, digest);
    RestAbsorbed(live, manifest);
    ManifestMetaIsObject(live, manifest);
    MetaAgain(a, manifest, c, Updated(c, manifest, parse, digest));
  }

  lemma MetaOfSecond(c: Fields, manifest: Fields, d: Fields, parse: Parse, digest: Digest)
    requires MetaIsObject(MergeMap(c, manifest)) && d == Updated(c, manifest, parse, digest)
    requires MetaIsObject(c) && SameButVolatile(d, c)
    requires Get(c["metadata"].fields, "resourceVersion") in
               [None, Some(Str(LookupString(c, RESOURCE_VERSION)))]
    requires LookupString(c, RESOURCE_VERSION) == "" ==> Get(c["metadata"].fields, "resourceVersion") == None
    ensures MetaIsObject(d)
    ensures forall k | k != "resourceVersion" && k != "annotations" ::
              Get(d["metadata"].fields, k) == Get(MergeMap(c, manifest)["metadata"].fields, k)
    ensures forall k | k in ["annotations", "resourceVersion"] ::
              Get(d["metadata"].fields, k) == Get(c["metadata"].fields, k)
  {
    UpdatedMeta(c, manifest, parse, digest);
    SentVersion(c, manifest, parse, digest);
    var dm, cm := d["metadata"].fields, c["metadata"].fields;
    assert Get(dm - Volatile(), "annotations") == Get(cm - Volatile(), "annotations");
    assert RESOURCE_VERSION[1..] == ["resourceVersion"];
  }

  lemma MetaAgain(a: Fields, manifest: Fields, c: Fields, d: Fields)
    requires MergeMap(a, OwnRest(manifest)) == a && ("metadata" in manifest ==> manifest["metadata"].Obj?)
    requires MetaIsObject(a) && MetaIsObject(c) && MetaIsObject(d) && MetaIsObject(MergeMap(c, manifest))
    requires forall k | k != "resourceVersion" && k != "annotations" ::
               && Get(c["metadata"].fields, k) == Get(a["metadata"].fields, k)
               && Get(d["metadata"].fields, k) == Get(MergeMap(c, manifest)["metadata"].fields, k)
    requires forall k | k in ["annotations", "resourceVersion"] ::
               Get(d["metadata"].fields, k) == Get(c["metadata"].fields, k)
    ensures Meta(d) == Meta(c)
  {
    MetaOverlay(a, manifest, c);
    SameAgain(a["metadata"].fields, c["metadata"].fields, d["metadata"].fields, ManifestMeta(manifest));
  }

  lemma SameAgain(am: Fields, cm: Fields, dm: Fields, n: Fields)
    requires MergeMap(am, n - WRITTEN) == am
    requires forall k | k != "resourceVersion" && k != "annotations" :: Get(cm, k) == Get(am, k)
    requires forall k | k != "resourceVersion" && k != "annotations" :: Get(dm, k) == Get(MergeMap(cm, n), k)
    requires forall k | k in ["annotations", "resourceVersion"] :: Get(dm, k) == Get(cm, k)
    ensures dm == cm
  {
    forall k ensures Get(dm, k) == Get(cm, k) {
      if k != "annotations" && k != "resourceVersion" {
        MergeAt(cm, n, k);
        MergeAt(am, n - WRITTEN, k);
      }
    }
    SameMembers(dm, cm);
  }

  // ------------------------------------------------- exactly when it is the same

  /** If the second update is the same, the rest of the manifest is clean and the spec is the same. */
  lemma SameMeansClean(live: Fields, manifest: Fields, parse: Parse, digest: Digest)
    requires MetaIsObject(MergeMap(live, manifest))
    requires var c := Updated(live, manifest, parse, digest); Updated(c, manifest, parse, digest) == c
    ensures Clean(live, OwnRest(manifest))
    ensures var c := Updated(live, manifest, parse, digest);
            Get(Corrected(c, manifest, parse), "spec") == Get(c, "spec")
  {
    var a, c := MergeMap(live, manifest), Updated(live, manifest, parse, digest);
    var rest := OwnRest(manifest);
    UpdatedMeta(live, manifest, parse, digest);
    CorrectedShape(live, manifest, parse);
    SecondMeta(live, manifest, c, parse, digest);
    UpdatedMeta(c, manifest, parse, digest);
    CorrectedShape(c, manifest, parse);
    MetaStays(live, manifest, c);
    forall k ensures Get(MergeMap(a, rest), k) == Get(a, k) {
      if k == "spec" {
        MergeAt(a, rest, k);
      } else if k != "metadata" {
        MemberOverlay(a, manifest, c, k);
      }
    }
    SameMembers(MergeMap(a, rest), a);
    RestAbsorbed(live, manifest);
  }

  lemma MetaStays(live: Fields, manifest: Fields, c: Fields)
    requires MetaIsObject(MergeMap(live, manifest)) && MetaIsObject(c) && MetaIsObject(MergeMap(c, manifest))
    requires forall k | k != "resourceVersion" && k != "annotations" ::
               && Get(c["metadata"].fields, k) == Get(MergeMap(live, manifest)["metadata"].fields, k)
               && Get(c["metadata"].fields, k) == Get(MergeMap(c, manifest)["metadata"].fields, k)
    ensures var a := MergeMap(live, manifest); Meta(MergeMap(a, OwnRest(manifest))) == Meta(a)
  {
    var a := MergeMap(live, manifest);
    ManifestMetaIsObject(live, manifest);
    MetaOverlay(a, manifest, c);
    var am, cm, n := a["metadata"].fields, c["metadata"].fields, ManifestMeta(manifest);
    forall k ensures Get(MergeMap(am, n - WRITTEN), k) == Get(am, k) {
      MergeAt(am, n - WRITTEN, k);
      MergeAt(cm, n, k);
    }
    SameMembers(MergeMap(am, n - WRITTEN), am);
  }

  /** And the annotations stay, since the same hash means the same content. */
  lemma SameMeansAnnotationsStay(live: Fields, manifest: Fields, parse: Parse, digest: Digest)
    requires CollisionFree(digest) && MetaIsObject(MergeMap(live, manifest))
    requires var c := Updated(live, manifest, parse, digest); Updated(c, manifest, parse, digest) == c
    ensures AnnotationsStay(Annotations(MergeMap(live, manifest)), Get(ManifestMeta(manifest), "annotations"))
  {
    var c, over := Updated(live, manifest, parse, digest), Get(ManifestMeta(manifest), "annotations");
    SentAnnotations(live, manifest, parse, digest);
    SecondMeta(live, manifest, c, parse, digest);
    SentAnnotations(c, manifest, parse, digest);
    SameHashMeansStay(Annotations(MergeMap(live, manifest)), over, Corrected(live, manifest, parse),
                      Corrected(c, manifest, parse), digest);
  }

  lemma SentAnnotations(live: Fields, manifest: Fields, parse: Parse, digest: Digest)
    requires MetaIsObject(MergeMap(live, manifest))
    ensures var a, b := MergeMap(live, manifest), Corrected(live, manifest, parse);
            && MetaIsObject(b) && Annotations(b) == Annotations(a)
            && Annotations(Updated(live, manifest, parse, digest)) ==
               Some(Obj(KeptIn(Annotations(a))[HASH_ANNOTATION := Str(digest(Stripped(b)))]))
  {
    CorrectedShape(live, manifest, parse);
    UpdatedMeta(live, manifest, parse, digest);
  }

  lemma SameHashMeansStay(x: Option<Value>, over: Option<Value>, b: Fields, b2: Fields, digest: Digest)
    requires CollisionFree(digest) && MetaIsObject(b) && MetaIsObject(b2)
    requires Annotations(b) == x && Annotations(b2) == Again(x, over, digest(Stripped(b)))
    requires KeptIn(Annotations(b2))[HASH_ANNOTATION := Str(digest(Stripped(b2)))] ==
             KeptIn(x)[HASH_ANNOTATION := Str(digest(Stripped(b)))]
    ensures AnnotationsStay(x, over)
  {
    SameHashes(KeptIn(Annotations(b2)), KeptIn(x), digest(Stripped(b2)), digest(Stripped(b)));
    StrippedExact(b2, b);
    StayWithHash(x, over, digest(Stripped(b)));
  }

  lemma SameHashes(f: Fields, g: Fields, h: string, h': string)
    requires f[HASH_ANNOTATION := Str(h)] == g[HASH_ANNOTATION := Str(h')]
    ensures h == h'
  {
    assert f[HASH_ANNOTATION := Str(h)][HASH_ANNOTATION] == Str(h);
    assert g[HASH_ANNOTATION := Str(h')][HASH_ANNOTATION] == Str(h');
  }

  lemma KindAgain(live: Fields, manifest: Fields, stored: Fields)
    requires Get(stored, "kind") == Get(MergeMap(live, manifest), "kind")
    ensures Kind(MergeMap(stored, manifest)) == Kind(MergeMap(live, manifest))
  {
    MergeAt(live, manifest, "kind");
    MergeAt(stored, manifest, "kind");
  }

  /** When the spec stays as it is: one condition per way it came about. */
  predicate SpecSettles(live: Fields, manifest: Fields, parse: Parse) {
    var a := MergeMap(live, manifest);
    var capacity := Quantity(a, CAPACITY, parse);
    SpecIsObject(a) ==>
      if SpecIsObject(live)
      then SpecStays(Kind(a), live["spec"].fields, OwnSpec(ManifestSpec(manifest), Kind(a)),
                     StorageFloor(live, parse), capacity, parse)
      else NewSpecStays(Kind(a), a["spec"].fields, capacity, parse)
  }

  /** The condition under which deploying the same manifest again is a no-op, for every kind. */
  predicate Redeployable(live: Fields, manifest: Fields, parse: Parse) {
    Clean(live, OwnRest(manifest)) && AnnotationsSettle(live, manifest) && SpecSettles(live, manifest, parse)
  }

  /** What the second update starts from, spec by spec. */
  lemma SpecOfSecond(live: Fields, manifest: Fields, stored: Fields, parse: Parse)
    requires Get(stored, "spec") == Get(Corrected(live, manifest, parse), "spec")
    requires forall k | k in ["kind", "status"] :: Get(stored, k) == Get(MergeMap(live, manifest), k)
    ensures var a, n := MergeMap(live, manifest), ManifestSpec(manifest);
            if !SpecIsObject(a) then Get(Corrected(stored, manifest, parse), "spec") == Get(stored, "spec")
            else
              && SpecIsObject(stored)
              && Get(Corrected(stored, manifest, parse), "spec") ==
                 Some(Obj(AdoptedSpec(Kind(a), MergeMap(stored["spec"].fields, n), stored["spec"].fields,
                                      StorageFloor(stored, parse), parse)))
  {
    var a := MergeMap(live, manifest);
    CorrectedSpec(live, manifest, parse);
    CorrectedSpec(stored, manifest, parse);
    KindAgain(live, manifest, stored);
    MergeAt(live, manifest, "spec");
    MergeAt(stored, manifest, "spec");
    if SpecIsObject(a) {
      MergeNothing(stored["spec"].fields);
    }
  }

  lemma SpecOfFirst(live: Fields, manifest: Fields, parse: Parse)
    requires SpecIsObject(MergeMap(live, manifest))
    ensures var a, b, n := MergeMap(live, manifest), Corrected(live, manifest, parse), ManifestSpec(manifest);
            Get(b, "spec") == Some(Obj(
              if SpecIsObject(live)
              then AdoptedSpec(Kind(a), MergeMap(live["spec"].fields, n), live["spec"].fields, StorageFloor(live,
                  parse), parse)
              else n))
    ensures !SpecIsObject(live) ==> MergeMap(live, manifest)["spec"].fields == ManifestSpec(manifest)
  {
    CorrectedSpec(live, manifest, parse);
    MergeAt(live, manifest, "spec");
    if SpecIsObject(live) {
      MergeNothing(live["spec"].fields);
    }
  }

  lemma FloorOfSecond(a: Fields, stored: Fields, parse: Parse)
    requires SpecIsObject(stored) && Get(stored, "status") == Get(a, "status")
    ensures StorageFloor(stored, parse) ==
            Larger(Quantity(stored["spec"].fields, REQUEST[1..], parse), Quantity(a, CAPACITY, parse), parse)
  {
    SameStart(stored, a, CAPACITY);
    LookupInSpec(stored, REQUEST);
  }

  /** The spec sent the second time is the stored one exactly under that condition. */
  lemma SpecAgain(live: Fields, manifest: Fields, stored: Fields, parse: Parse)
    requires parse("") == None
    requires Get(stored, "spec") == Get(Corrected(live, manifest, parse), "spec")
    requires forall k | k in ["kind", "status"] :: Get(stored, k) == Get(MergeMap(live, manifest), k)
    ensures Get(Corrected(stored, manifest, parse), "spec") == Get(stored, "spec") <==>
        SpecSettles(live, manifest, parse)
  {
    var a, n := MergeMap(live, manifest), ManifestSpec(manifest);
    SpecOfSecond(live, manifest, stored, parse);
    if SpecIsObject(a) {
      SpecOfFirst(live, manifest, parse);
      FloorOfSecond(a, stored, parse);
      if SpecIsObject(live) {
        SpecFromLive(Kind(a), live["spec"].fields, n, stored["spec"].fields, StorageFloor(live, parse),
                     StorageFloor(stored, parse), Quantity(a, CAPACITY, parse), parse);
      } else {
        NewSpecStaysExactly(Kind(a), n, Quantity(a, CAPACITY, parse), parse);
      }
    }
  }

  lemma SpecFromLive(kind: string, base: Fields, n: Fields, t: Fields, floor: Option<string>, floor2: Option<string>,
                     capacity: Option<string>, parse: Parse)
    requires parse("") == None
    requires floor.Some? ==> parse(floor.value).Some?
    requires capacity.Some? ==> parse(capacity.value).Some?
    requires t == AdoptedSpec(kind, MergeMap(base, n), base, floor, parse)
    requires floor2 == Larger(Quantity(t, REQUEST[1..], parse), capacity, parse)
    ensures AdoptedSpec(kind, MergeMap(t, n), t, floor2, parse) == t <==>
            SpecStays(kind, base, OwnSpec(n, kind), floor, capacity, parse)
  {
    SpecStaysExactly(kind, base, n, floor, capacity, parse);
  }

  /**
   Deploying a manifest again is a no-op exactly when the object is redeployable: the second
   update of what the first one sent is the same object.
   */
  lemma RedeployExactly(live: Fields, manifest: Fields, parse: Parse, digest: Digest)
    requires parse("") == None && MetaIsObject(MergeMap(live, manifest))
    requires CollisionFree(digest) || Stampable(MergeMap(live, manifest))
    ensures var c := Updated(live, manifest, parse, digest);
            Updated(c, manifest, parse, digest) == c <==> Redeployable(live, manifest, parse)
  {
    var c := Updated(live, manifest, parse, digest);
    UpdatedMeta(live, manifest, parse, digest);
    CorrectedShape(live, manifest, parse);
    SpecAgain(live, manifest, c, parse);
    SettleExactly(live, manifest);
    if Redeployable(live, manifest, parse) {
      SecondUpdate(live, manifest, c, parse, digest);
      SameMetadata(live, manifest, parse, digest);
      SameMembers(Updated(c, manifest, parse, digest), c);
    }
    if Updated(c, manifest, parse, digest) == c {
      SameMeansClean(live, manifest, parse, digest);
      if !Stampable(MergeMap(live, manifest)) {
        SameMeansAnnotationsStay(live, manifest, parse, digest);
      }
    }
  }

  lemma Redeployed(live: Fields, manifest: Fields, stored: Fields, parse: Parse, digest: Digest)
    requires parse("") == None && MetaIsObject(MergeMap(live, manifest)) && Redeployable(live, manifest, parse)
    requires SameButVolatile(stored, Updated(live, manifest, parse, digest))
    ensures SameButVolatile(Updated(stored, manifest, parse, digest), Updated(live, manifest, parse, digest))
  {
    UpdatedMeta(live, manifest, parse, digest);
    CorrectedShape(live, manifest, parse);
    SpecAgain(live, manifest, stored, parse);
    SettleExactly(live, manifest);
    SecondUpdate(live, manifest, stored, parse, digest);
  }

  /**
   And when the API server rewrites volatile metadata of the stored object, the second update is
   the same but for that.
   */
  lemma RedeployFixpoint(live: Fields, manifest: Fields, parse: Parse, digest: Digest)
    requires parse("") == None && MetaIsObject(MergeMap(live, manifest)) && Redeployable(live, manifest, parse)
    ensures var c := Updated(live, manifest, parse, digest);
            forall stored | SameButVolatile(stored, c) :: SameButVolatile(Updated(stored, manifest, parse, digest), c)
  {
    var c := Updated(live, manifest, parse, digest);
    forall stored | SameButVolatile(stored, c) ensures SameButVolatile(Updated(stored, manifest, parse, digest), c) {
      Redeployed(live, manifest, stored, parse, digest);
    }
  }
}
