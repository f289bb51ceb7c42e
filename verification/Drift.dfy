/**
 Drift detection: the hash of an object's meaningful content, the annotation that records
 it, and when the recorded hash still matches. SHA-256 over the JSON encoding is an
 arbitrary function `digest`; where the exact condition needs it, it is assumed free of
 collisions.
 */
module Drift {
  import opened Options
  import opened Json

  const HASH_ANNOTATION := "k8s-agent.io/last-applied-hash"
  const VOLATILE_KEYS: seq<string> :=
    ["resourceVersion", "uid", "generation", "creationTimestamp", "managedFields"]
  const ANNOTATIONS: Path := ["metadata", "annotations"]

  type Digest = Fields -> string

  /** Different contents have different digests, and a digest is never the empty string. */
  ghost predicate CollisionFree(digest: Digest) {
    && (forall a: Fields, b: Fields :: digest(a) == digest(b) ==> a == b)
    && (forall a: Fields :: digest(a) != "")
  }

  function Volatile(): set<string> {
    set k | k in VOLATILE_KEYS
  }

  /** Metadata without the server-managed keys, the hash annotation, and an emptied annotation object. */
  function StripMeta(meta: Fields): Fields {
    var m := meta - Volatile();
    if "annotations" in m && m["annotations"].Obj? then
      var ann := m["annotations"].fields - {HASH_ANNOTATION};
      if ann == map[] then m - {"annotations"} else m["annotations" := Obj(ann)]
    else m
  }

  function Stripped(m: Fields): Fields {
    if "metadata" in m && m["metadata"].Obj?
    then m["metadata" := Obj(StripMeta(m["metadata"].fields))]
    else m
  }

  method HashObject(m: Fields, digest: Digest) returns (h: string)
    ensures h == digest(Stripped(m))
  {
    var cpy := m;
    if "metadata" in cpy && cpy["metadata"].Obj? {
      var meta := cpy["metadata"].fields;
      for i := 0 to |VOLATILE_KEYS|
        invariant meta == cpy["metadata"].fields - set k | k in VOLATILE_KEYS[..i]
      {
        meta := meta - {VOLATILE_KEYS[i]};
        assert VOLATILE_KEYS[..i + 1] == VOLATILE_KEYS[..i] + [VOLATILE_KEYS[i]];
      }
      assert VOLATILE_KEYS[..|VOLATILE_KEYS|] == VOLATILE_KEYS;
      if "annotations" in meta && meta["annotations"].Obj? {
        var ann := meta["annotations"].fields - {HASH_ANNOTATION};
        meta := meta["annotations" := Obj(ann)];
        if |ann| == 0 {
          meta := meta - {"annotations"};
          assert meta == cpy["metadata"].fields - Volatile() - {"annotations"};
        }
      }
      cpy := cpy["metadata" := Obj(meta)];
    }
    h := digest(cpy);
  }

  predicate Check(live: Fields, expected: string, digest: Digest) {
    digest(Stripped(live)) == expected
  }

  predicate Readable(f: Fields) {
    forall k | k in f :: f[k].Str? || f[k].Null?
  }

  /** `GetAnnotations`: nulls read as "", anything else that is not a string hides the whole map. */
  function GetAnnotations(m: Fields): Option<Fields> {
    match Lookup(m, ANNOTATIONS)
    case Some(Obj(f)) =>
      if Readable(f) then Some(map k | k in f :: if f[k].Null? then Str("") else f[k]) else None
    case _ => None
  }

  function Stamped(m: Fields, digest: Digest): Fields {
    var ann := match GetAnnotations(m) case Some(f) => f case None => map[];
    SetOrKeep(m, ANNOTATIONS, Obj(ann[HASH_ANNOTATION := Str(digest(Stripped(m)))]))
  }

  method Stamp(obj: Unstructured, digest: Digest)
    modifies obj
    ensures obj.content == Stamped(old(obj.content), digest)
  {
    var ann := map[];
    match GetAnnotations(obj.content) {
      case Some(f) => ann := f;
      case None =>
    }
    var h := HashObject(obj.content, digest);
    ann := ann[HASH_ANNOTATION := Str(h)];
    obj.content := SetOrKeep(obj.content, ANNOTATIONS, Obj(ann));
  }

  // ------------------------------------------------------- what the hash sees

  /** The annotations apart from the recorded hash; none at all and an empty object are alike. */
  function OthersIn(annotations: Option<Value>): Value {
    match annotations
    case None => Obj(map[])
    case Some(Obj(f)) => Obj(f - {HASH_ANNOTATION})
    case Some(v) => v
  }

  function OtherAnnotations(meta: Fields): Value {
    OthersIn(Get(meta, "annotations"))
  }

  ghost predicate SameMeta(a: Fields, b: Fields) {
    && (forall k | k !in Volatile() && k != "annotations" :: Get(a, k) == Get(b, k))
    && OtherAnnotations(a) == OtherAnnotations(b)
  }

  /** Equal apart from server-managed metadata and the recorded hash. */
  ghost predicate SameContent(a: Fields, b: Fields) {
    && (forall k | k != "metadata" :: Get(a, k) == Get(b, k))
    && match (Get(a, "metadata"), Get(b, "metadata"))
       case (Some(Obj(x)), Some(Obj(y))) => SameMeta(x, y)
       case (x, y) => x == y
  }

  lemma StripMetaAt(meta: Fields, k: string)
    ensures k != "annotations" ==>
              Get(StripMeta(meta), k) == if k in Volatile() then None else Get(meta, k)
    ensures OtherAnnotations(meta) ==
            match Get(StripMeta(meta), "annotations") case None => Obj(map[]) case Some(v) => v
    ensures Get(StripMeta(meta), "annotations") != Some(Obj(map[]))
  {
    assert "annotations" !in Volatile();
  }

  lemma StripMetaExact(a: Fields, b: Fields)
    ensures StripMeta(a) == StripMeta(b) <==> SameMeta(a, b)
  {
    var x, y := StripMeta(a), StripMeta(b);
    StripMetaAt(a, "annotations");
    StripMetaAt(b, "annotations");
    if SameMeta(a, b) {
      forall k ensures Get(x, k) == Get(y, k) {
        StripMetaAt(a, k);
        StripMetaAt(b, k);
      }
      SameMembers(x, y);
    }
    if x == y {
      assert OtherAnnotations(a) == OtherAnnotations(b);
      forall k | k !in Volatile() && k != "annotations" ensures Get(a, k) == Get(b, k) {
        assert Get(x, k) == Get(y, k);
      }
    }
  }

  /** The stripped form keeps exactly the content: nothing else is ignored, nothing else is seen. */
  lemma StrippedExact(a: Fields, b: Fields)
    ensures Stripped(a) == Stripped(b) <==> SameContent(a, b)
  {
    var x, y := Stripped(a), Stripped(b);
    if "metadata" in a && a["metadata"].Obj? && "metadata" in b && b["metadata"].Obj? {
      StripMetaExact(a["metadata"].fields, b["metadata"].fields);
    }
    if SameContent(a, b) {
      forall k ensures Get(x, k) == Get(y, k) {
        assert k != "metadata" ==> Get(a, k) == Get(b, k);
      }
      SameMembers(x, y);
    }
    if x == y {
      forall k | k != "metadata" ensures Get(a, k) == Get(b, k) {
        assert Get(x, k) == Get(y, k);
      }
      assert Get(x, "metadata") == Get(y, "metadata");
    }
  }

  // ----------------------------------------------------------------- stamping

  function Meta(m: Fields): Option<Value> {
    Get(m, "metadata")
  }

  function RecordedHash(m: Fields): string {
    LookupString(m, ANNOTATIONS + [HASH_ANNOTATION])
  }

  /** The annotations besides the hash: none at all, an object of them, or what stands in their place. */
  function Unhashed(annotations: Option<Value>): Value {
    match annotations
    case None => Obj(map[])
    case Some(Obj(f)) => Obj(f - {"k8s-agent.io/last-applied-hash"})
    case Some(v) => v
  }

  /**
   What the hash sees, written out: two objects hash alike exactly when they agree on every member
   but the metadata, on every metadata member but the five the server manages, and on every
   annotation but the hash itself.
   */
  lemma HashedAlike(a: Fields, b: Fields)
    ensures Stripped(a) == Stripped(b) <==>
            && (forall k | k != "metadata" :: Get(a, k) == Get(b, k))
            && (match (Get(a, "metadata"), Get(b, "metadata"))
                case (Some(Obj(x)), Some(Obj(y))) =>
                  && (forall k | k !in ["resourceVersion", "uid", "generation", "creationTimestamp", "managedFields",
                                        "annotations"] :: Get(x, k) == Get(y, k))
                  && Unhashed(Get(x, "annotations")) == Unhashed(Get(y, "annotations"))
                case (x, y) => x == y)
  {
    StrippedExact(a, b);
  }

  /** The annotations `Stamp` starts from. */
  function KeptIn(annotations: Option<Value>): Fields {
    match annotations
    case Some(Obj(f)) => if Readable(f) then map k | k in f :: if f[k].Null? then Str("") else f[k] else map[]
    case _ => map[]
  }

  function Kept(m: Fields): Fields {
    KeptIn(Lookup(m, ANNOTATIONS))
  }

  lemma StampedShape(m: Fields, digest: Digest)
    ensures Stamped(m, digest) ==
            match Meta(m)
            case Some(Obj(meta)) =>
              m["metadata" := Obj(meta["annotations" :=
                Obj(Kept(m)[HASH_ANNOTATION := Str(digest(Stripped(m)))])])]
            case None =>
              m["metadata" := Obj(map["annotations" :=
                Obj(map[HASH_ANNOTATION := Str(digest(Stripped(m)))])])]
            case _ => m
  {
    assert ANNOTATIONS[1..] == ["annotations"];
  }

  lemma AnnotationsAt(m: Fields)
    ensures Lookup(m, ANNOTATIONS) ==
            match Meta(m) case Some(Obj(meta)) => Get(meta, "annotations") case _ => None
    ensures Lookup(m, ANNOTATIONS + [HASH_ANNOTATION]) ==
            match Lookup(m, ANNOTATIONS) case Some(Obj(f)) => Get(f, HASH_ANNOTATION) case _ => None
  {
    assert ANNOTATIONS[1..] == ["annotations"];
    LookupInSteps(m, ANNOTATIONS, [HASH_ANNOTATION]);
  }

  /** Annotations that `Stamp` keeps as they are: all strings, or none besides the hash. */
  predicate Legible(annotations: Option<Value>) {
    match annotations
    case None => true
    case Some(Obj(f)) =>
      || f - {HASH_ANNOTATION} == map[]
      || forall k | k in f :: f[k].Str? || (k == HASH_ANNOTATION && f[k].Null?)
    case _ => false
  }

  lemma LegibleExact(annotations: Option<Value>)
    ensures Obj(KeptIn(annotations) - {HASH_ANNOTATION}) == OthersIn(annotations) <==> Legible(annotations)
  {
    match annotations {
      case Some(Obj(f)) =>
        var others, kept := f - {HASH_ANNOTATION}, KeptIn(annotations) - {HASH_ANNOTATION};
        if others == map[] {
          forall k ensures k !in kept {
            assert k !in others;
          }
        } else if Legible(annotations) {
          assert kept == others;
        }
        if kept == others && others != map[] {
          forall k | k in f ensures f[k].Str? || (k == HASH_ANNOTATION && f[k].Null?) {
            assert k != HASH_ANNOTATION ==> k in kept && kept[k] == f[k];
          }
        }
      case _ =>
    }
  }

  /** What an object must look like for its stamp to describe the stamped object itself. */
  predicate Stampable(m: Fields) {
    match Meta(m)
    case Some(Obj(meta)) => Legible(Get(meta, "annotations"))
    case _ => false
  }

  lemma StampKeepsContent(m: Fields, digest: Digest)
    requires Meta(m).None? || Meta(m).value.Obj?
    ensures SameContent(Stamped(m, digest), m) <==> Stampable(m)
  {
    StampedShape(m, digest);
    AnnotationsAt(m);
    var c := Stamped(m, digest);
    match Meta(m)
    case None =>
    case Some(v) =>
      var meta := v.fields;
      var meta' := meta["annotations" := Obj(Kept(m)[HASH_ANNOTATION := Str(digest(Stripped(m)))])];
      assert Get(c, "metadata") == Some(Obj(meta'));
      assert OtherAnnotations(meta') == Obj(Kept(m) - {HASH_ANNOTATION});
      LegibleExact(Get(meta, "annotations"));
  }

  lemma RecordedAfterStamp(m: Fields, digest: Digest)
    ensures RecordedHash(Stamped(m, digest)) ==
            if Meta(m).None? || Meta(m).value.Obj? then digest(Stripped(m)) else ""
  {
    StampedShape(m, digest);
    AnnotationsAt(Stamped(m, digest));
  }

  /** A freshly stamped object passes its own drift check exactly when it was stampable. */
  lemma StampThenCheck(m: Fields, digest: Digest)
    requires CollisionFree(digest)
    ensures Check(Stamped(m, digest), RecordedHash(Stamped(m, digest)), digest) <==> Stampable(m)
  {
    RecordedAfterStamp(m, digest);
    if Meta(m).None? || Meta(m).value.Obj? {
      StampKeepsContent(m, digest);
      StrippedExact(Stamped(m, digest), m);
    }
  }

  lemma StampUpToDate(c: Fields, meta: Fields, ann: Fields, digest: Digest)
    requires Meta(c) == Some(Obj(meta)) && Get(meta, "annotations") == Some(Obj(ann)) && AllStrings(ann)
    requires Get(ann, HASH_ANNOTATION) == Some(Str(digest(Stripped(c))))
    ensures Stamped(c, digest) == c
  {
    StampedShape(c, digest);
    AnnotationsAt(c);
    assert Kept(c) == ann;
    assert ann[HASH_ANNOTATION := ann[HASH_ANNOTATION]] == ann;
    assert meta["annotations" := Obj(ann)] == meta;
    assert c["metadata" := Obj(meta)] == c;
  }

  /** Stamping twice is stamping once, exactly for a stampable object or one that cannot be stamped at all. */
  lemma StampTwice(m: Fields, digest: Digest)
    requires CollisionFree(digest)
    ensures Stamped(Stamped(m, digest), digest) == Stamped(m, digest)
            <==> Stampable(m) || (Meta(m).Some? && !Meta(m).value.Obj?)
  {
    var c := Stamped(m, digest);
    StampedShape(m, digest);
    StampedShape(c, digest);
    if Meta(m).None? || Meta(m).value.Obj? {
      StampKeepsContent(m, digest);
      StrippedExact(c, m);
      AnnotationsAt(m);
      AnnotationsAt(c);
      RecordedAfterStamp(m, digest);
      RecordedAfterStamp(c, digest);
      if Stampable(m) {
        StampUpToDate(c, c["metadata"].fields, c["metadata"].fields["annotations"].fields, digest);
      }
    }
  }

  /** Equal apart from the metadata the API server rewrites on every write. */
  ghost predicate SameButVolatile(a: Fields, b: Fields) {
    && (forall k | k != "metadata" :: Get(a, k) == Get(b, k))
    && match (Meta(a), Meta(b))
       case (Some(Obj(x)), Some(Obj(y))) => x - Volatile() == y - Volatile()
       case (x, y) => x == y
  }

  lemma VolatileIsNotContent(a: Fields, b: Fields)
    requires SameButVolatile(a, b)
    ensures SameContent(a, b) && RecordedHash(a) == RecordedHash(b)
  {
    AnnotationsAt(a);
    AnnotationsAt(b);
    assert "annotations" !in Volatile();
    match (Meta(a), Meta(b)) {
      case (Some(Obj(x)), Some(Obj(y))) =>
        forall k | k !in Volatile() ensures Get(x, k) == Get(y, k) {
          assert Get(x - Volatile(), k) == Get(y - Volatile(), k);
        }
        assert Get(x, "annotations") == Get(y, "annotations");
      case _ =>
    }
  }

  /** Drift round trip: a stamped object stored by a server that only rewrites volatile metadata matches. */
  lemma StoredObjectMatches(m: Fields, stored: Fields, digest: Digest)
    requires Stampable(m) && SameButVolatile(stored, Stamped(m, digest))
    ensures RecordedHash(stored) == digest(Stripped(m))
    ensures Check(stored, RecordedHash(stored), digest)
  {
    VolatileIsNotContent(stored, Stamped(m, digest));
    RecordedAfterStamp(m, digest);
    StampKeepsContent(m, digest);
    StrippedExact(Stamped(m, digest), m);
    StrippedExact(stored, Stamped(m, digest));
  }
}
