/** Manifests whose second deployment sends something new. */
module RedeployLimits {
  import opened Options
  import opened Json
  import opened Merge
  import opened Adopt
  import opened Drift
  import opened Redeploy
  import opened UpdatedObject

  /** A null below an object the manifest introduces is in the way of `Clean`. */
  lemma {:induction false} NullBelow(base: Fields, over: Fields, path: Path)
    requires path != [] && SettingAt(over, path).Sets? && SettingAt(over, path).value.Obj?
    requires !NullFree(SettingAt(over, path).value.fields)
    ensures !NullFree(over)
    ensures Lookup(base, path).None? || !Lookup(base, path).value.Obj? ==> !Clean(base, over)
    decreases |path|
  {
    var k := path[0];
    if |path| > 1 {
      NullBelow(if k in base && base[k].Obj? then base[k].fields else map[], over[k].fields, path[1..]);
    }
  }

  /** The path is none of the spec and of the metadata the agent writes. */
  predicate OwnPath(path: Path) {
    path != [] && path[0] != "spec" && (path[0] == "metadata" ==> |path| > 1 && path[1] !in WRITTEN)
  }

  lemma RestSetting(manifest: Fields, path: Path)
    requires OwnPath(path)
    ensures SettingAt(OwnRest(manifest), path) == SettingAt(manifest, path)
  {
    if path[0] == "metadata" && "metadata" in manifest && manifest["metadata"].Obj? {
      assert path[1..][0] == path[1];
    }
  }

  /**
   A null inside an object the manifest introduces, anywhere outside the spec and the annotations,
   is stored, and removed by the next update.
   */
  lemma NullInNewObject(live: Fields, manifest: Fields, path: Path, parse: Parse, digest: Digest)
    requires MetaIsObject(MergeMap(live, manifest)) && OwnPath(path)
    requires Lookup(live, path).None? || !Lookup(live, path).value.Obj?
    requires SettingAt(manifest, path).Sets? && SettingAt(manifest, path).value.Obj?
    requires !NullFree(SettingAt(manifest, path).value.fields)
    ensures var c := Updated(live, manifest, parse, digest); Updated(c, manifest, parse, digest) != c
  {
    RestSetting(manifest, path);
    NullBelow(live, OwnRest(manifest), path);
    var c := Updated(live, manifest, parse, digest);
    if Updated(c, manifest, parse, digest) == c {
      SameMeansClean(live, manifest, parse, digest);
    }
  }

  function ConfigMap(members: Fields): Fields {
    members["kind" := Str("ConfigMap")]["metadata" := Obj(map["name" := Str("settings")])]
  }

  /** For example in the data of a new ConfigMap entry. */
  lemma NullInConfigMap(parse: Parse, digest: Digest) returns (data: Fields)
    ensures data == map["key" := Null]
    ensures var live, manifest := ConfigMap(map[]), ConfigMap(map["data" := Obj(data)]);
            var c := Updated(live, manifest, parse, digest);
            Updated(c, manifest, parse, digest) != c
  {
    data := map["key" := Null];
    assert !NullFree(data) by { assert data["key"] == Null; }
    var live, manifest := ConfigMap(map[]), ConfigMap(map["data" := Obj(data)]);
    MergeAt(live, manifest, "metadata");
    NullInNewObject(live, manifest, ["data"], parse, digest);
  }

  /**
   An annotation that is not a string, such as an unquoted number, hides all annotations from the
   stamp: a live annotation the manifest does not mention is lost, the object fails its own drift
   check, and the second update sends something else.
   */
  lemma UnquotedAnnotation(live: Fields, manifest: Fields, lf: Fields, of: Fields, n: string, j: string,
                           parse: Parse, digest: Digest)
    requires parse("") == None && CollisionFree(digest)
    requires MetaIsObject(live) && Annotations(live) == Some(Obj(lf)) && j in lf && j != HASH_ANNOTATION
    requires MetaIsObject(manifest) && Annotations(manifest) == Some(Obj(of)) && n in of && j !in of
    requires !of[n].Str? && !of[n].Null?
    ensures var c := Updated(live, manifest, parse, digest);
            && Annotations(c) == Some(Obj(map[HASH_ANNOTATION := Str(RecordedHash(c))]))
            && !Check(c, RecordedHash(c), digest)
            && Updated(c, manifest, parse, digest) != c
  {
    var a, c := MergeMap(live, manifest), Updated(live, manifest, parse, digest);
    MergeAt(live, manifest, "metadata");
    MergeAt(live["metadata"].fields, manifest["metadata"].fields, "annotations");
    HiddenByOne(lf, of, n, j);
    UpdatedMeta(live, manifest, parse, digest);
    RecordedAfterStamp(Corrected(live, manifest, parse), digest);
    CorrectedShape(live, manifest, parse);
    AppliedObjectMatches(live, manifest, parse, digest);
    RedeployExactly(live, manifest, parse, digest);
  }

  lemma HiddenByOne(lf: Fields, of: Fields, n: string, j: string)
    requires j in lf && j != HASH_ANNOTATION && n in of && j !in of && !of[n].Str? && !of[n].Null?
    ensures var x, over := Some(Obj(MergeMap(lf, of))), Some(Obj(of));
            KeptIn(x) == map[] && !Legible(x) && !NoneKept(x, over)
  {
    var f, alone := MergeMap(lf, of), MergeMap(map[], of);
    MergeAt(lf, of, n);
    MergeAt(lf, of, j);
    MergeAt(map[], of, j);
    assert j in f - {HASH_ANNOTATION} && j !in alone - {HASH_ANNOTATION};
    assert !f[n].Str? && !f[n].Null?;
  }

  function Service(annotations: Fields): Fields {
    map["kind" := Str("Service"), "metadata" := Obj(map["name" := Str("web"), "annotations" := Obj(annotations)])]
  }

  lemma ServiceShape(annotations: Fields)
    ensures var m := Service(annotations);
            && Kind(m) == "Service" && LookupString(m, ["metadata", "name"]) == "web"
            && MetaIsObject(m) && Annotations(m) == Some(Obj(annotations))
  {
  }

  lemma NothingElseInTheWay(lf: Fields, of: Fields, parse: Parse)
    ensures Clean(Service(lf), OwnRest(Service(of))) && SpecSettles(Service(lf), Service(of), parse)
  {
    var rest := OwnRest(Service(of));
    assert rest["metadata"].fields == map["name" := Str("web")];
    MergeAt(Service(lf), Service(of), "spec");
  }

  /** For example a port number annotated on a service somebody else has annotated too. */
  lemma PortAnnotation(parse: Parse, digest: Digest) returns (lf: Fields, of: Fields)
    requires parse("") == None && CollisionFree(digest)
    ensures lf == map["owner" := Str("team")] && of == map["port" := Num("8080")]
    ensures Clean(Service(lf), OwnRest(Service(of))) && SpecSettles(Service(lf), Service(of), parse)
    ensures var c := Updated(Service(lf), Service(of), parse, digest);
            && Annotations(c) == Some(Obj(map[HASH_ANNOTATION := Str(RecordedHash(c))]))
            && !Check(c, RecordedHash(c), digest)
            && Updated(c, Service(of), parse, digest) != c
  {
    lf, of := map["owner" := Str("team")], map["port" := Num("8080")];
    assert HASH_ANNOTATION != "owner";
    ServiceShape(lf);
    ServiceShape(of);
    NothingElseInTheWay(lf, of, parse);
    UnquotedAnnotation(Service(lf), Service(of), lf, of, "port", "owner", parse, digest);
  }
}
