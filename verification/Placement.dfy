/** Where a manifest object goes, under which name, and with which body, in the manifest's own terms. */
module Placement {
  import opened Options
  import opened Json
  import opened Commands
  import Drift

  // ------------------------------------------------------------ name and namespace

  /** The manifest's own name or namespace if it has one, else the command target's, if it can be written. */
  function OwnOr(obj: Fields, key: string, target: string): string {
    match Lookup(obj, ["metadata", key])
    case Some(Str(s)) => if s != "" then s else OrTarget(obj, target)
    case _ => OrTarget(obj, target)
  }

  function OrTarget(obj: Fields, target: string): string {
    match Lookup(obj, ["metadata"])
    case None => target
    case Some(Obj(_)) => target
    case _ => ""
  }

  /** Named as the manifest says, the target filling in what it leaves open; everything else is the manifest's. */
  ghost predicate NamedAs(obj: Fields, target: Target, named: Fields) {
    && LookupString(named, ["metadata", "name"]) == OwnOr(obj, "name", target.name)
    && LookupString(named, ["metadata", "namespace"]) == OwnOr(obj, "namespace", target.namespace)
    && forall q {:trigger Lookup(named, q)} |
         q != [] && Diverge(["metadata", "name"], q) && Diverge(["metadata", "namespace"], q) ::
           Lookup(named, q) == Lookup(obj, q)
  }

  lemma DefaultAt(obj: Fields, key: string, value: string)
    ensures var r, path := WithDefault(obj, ["metadata", key], value), ["metadata", key];
            LookupString(r, path) == OwnOr(obj, key, value)
  {
    var path := ["metadata", key];
    assert path[1..] == [key];
    if LookupString(obj, path) == "" {
      if value == "" {
        RemoveThenLookup(obj, path);
      } else if Open(Lookup(obj, ["metadata"])) {
        SetExactly(obj, path, Str(value));
        assert path[..1] == ["metadata"];
        SetThenLookup(obj, path, Str(value));
      }
    }
  }

  lemma DefaultElsewhere(obj: Fields, key: string, value: string, q: Path)
    requires q != [] && Diverge(["metadata", key], q)
    ensures Lookup(WithDefault(obj, ["metadata", key], value), q) == Lookup(obj, q)
  {
    RemoveElsewhere(obj, ["metadata", key], q);
    SetElsewhere(obj, ["metadata", key], Str(value), q);
  }

  lemma DefaultKeepsShape(obj: Fields, key: string, value: string)
    ensures Open(Lookup(WithDefault(obj, ["metadata", key], value), ["metadata"])) == Open(Lookup(obj, ["metadata"]))
  {
    var path := ["metadata", key];
    assert path[1..] == [key];
  }

  lemma NamedExactly(obj: Fields, target: Target)
    ensures NamedAs(obj, target, Named(obj, target))
  {
    var name, ns := ["metadata", "name"], ["metadata", "namespace"];
    var first := WithDefault(obj, name, target.name);
    var named := WithDefault(first, ns, target.namespace);
    DivergeAt(name, ns, 1);
    DefaultAt(obj, "name", target.name);
    DefaultElsewhere(first, "namespace", target.namespace, name);
    DefaultAt(first, "namespace", target.namespace);
    DefaultElsewhere(obj, "name", target.name, ns);
    DefaultKeepsShape(obj, "name", target.name);
    forall q | q != [] && Diverge(name, q) && Diverge(ns, q) ensures Lookup(named, q) == Lookup(obj, q) {
      DefaultElsewhere(first, "namespace", target.namespace, q);
      DefaultElsewhere(obj, "name", target.name, q);
    }
  }

  // ------------------------------------------------------------------ the place

  /**
   Where the object goes: to the resource discovery finds for it, without a namespace if that is
   cluster-scoped; to the target's resource only when discovery has no match and the target has one.
   */
  predicate PlacedAs(cfg: Config, obj: Fields, named: Fields, target: Target, place: Place) {
    var name, ns := OwnOr(obj, "name", target.name), OwnOr(obj, "namespace", target.namespace);
    && place.name == name
    && match cfg.mapping(named)
       case Match(resource, true) => place.resource == resource && place.namespace == Some(ns)
       case Match(resource, false) => place.resource == resource && place.namespace == None
       case NoMatch =>
         && place.resource == target.resource && place.namespace == Some(ns)
         && target.resource.name != "" && target.resource.version != ""
       case MappingFailed => false
  }

  /** A manifest object goes where its own words put it, unless discovery fails or nothing tells its type. */
  lemma LocatedExactly(cfg: Config, obj: Fields, target: Target)
    ensures match Locate(cfg, obj, target)
            case Some(l) => NamedAs(obj, target, l.named) && PlacedAs(cfg, obj, l.named, target, l.place)
            case None =>
              var mapping := cfg.mapping(Named(obj, target));
              || mapping == MappingFailed
              || (mapping == NoMatch && (target.resource.name == "" || target.resource.version == ""))
  {
    NamedExactly(obj, target);
  }

  // ------------------------------------------------------------------- the body

  const HASH: Path := ["metadata", "annotations", "k8s-agent.io/last-applied-hash"]

  /** The body of a new object: the manifest with the hash of its own content, and its other annotations if legible. */
  lemma CreatedBody(cfg: Config, named: Fields)
    ensures var body := Prepare(cfg, named, None);
            && (Open(Lookup(named, ["metadata"])) ==>
                  Lookup(body, HASH) == Some(Str(cfg.digest(Drift.Stripped(named)))))
            && (!Open(Lookup(named, ["metadata"])) ==> body == named)
            && (forall q {:trigger Lookup(body, q)} | q != [] && Diverge(["metadata", "annotations"], q) ::
                  Lookup(body, q) == Lookup(named, q))
            && (Drift.Stampable(named) ==> Drift.SameContent(body, named))
  {
    var body := Prepare(cfg, named, None);
    var ann := match Drift.GetAnnotations(named) case Some(f) => f case None => map[];
    var hash := Str(cfg.digest(Drift.Stripped(named)));
    Drift.StampedShape(named, cfg.digest);
    Drift.AnnotationsAt(body);
    assert HASH == Drift.ANNOTATIONS + [Drift.HASH_ANNOTATION];
    forall q | q != [] && Diverge(["metadata", "annotations"], q) ensures Lookup(body, q) == Lookup(named, q) {
      SetElsewhere(named, ["metadata", "annotations"], Obj(ann[Drift.HASH_ANNOTATION := hash]), q);
    }
    if Drift.Stampable(named) {
      Drift.StampKeepsContent(named, cfg.digest);
    }
  }

  // ---------------------------------------------------------------- drift policy

  /** A live object the command may not overwrite: its hash was given, does not match, and the policy protects it. */
  predicate Protected(cfg: Config, cmd: Command, live: Fields) {
    && cmd.expectedHash != "" && cfg.digest(Drift.Stripped(live)) != cmd.expectedHash
    && match cfg.policy
       case DriftRefuse => true
       case DriftOverwrite => false
       case DriftOverwriteWithApproval => !cmd.override
  }

  lemma AllowedExactly(cfg: Config, cmd: Command, live: Fields)
    ensures MayOverwrite(cfg, cmd, live) <==> !Protected(cfg, cmd, live)
  {
  }

  /** The hash recorded after a patch is that of the object's content. */
  lemma RecordedExactly(cfg: Config, live: Fields)
    ensures HashOf(cfg, live) == if Open(Lookup(live, ["metadata"])) then cfg.digest(Drift.Stripped(live)) else ""
  {
    Drift.RecordedAfterStamp(live, cfg.digest);
  }
}
