/**
 What the executor corrects after overlaying a manifest on a live object: fields the API
 server treats as immutable are taken back from the live object, a claim's storage request
 never falls below the live volume, and a workload's template labels satisfy its selector.
 Quantities are compared through `parse`, an arbitrary partial reading of strings as numbers.
 */
module Adopt {
  import opened Options
  import opened Json

  type Parse = string -> Option<real>

  const PVC_FIELDS: seq<string> :=
    ["volumeName", "storageClassName", "volumeMode", "dataSource", "dataSourceRef", "selector"]
  const SERVICE_FIELDS: seq<string> := ["clusterIP", "clusterIPs", "ipFamilies", "ipFamilyPolicy"]
  const WORKLOAD_FIELDS: seq<string> := ["selector"]
  const WORKLOADS: seq<string> := ["Deployment", "StatefulSet", "DaemonSet", "ReplicaSet", "Job"]

  const REQUEST: Path := ["spec", "resources", "requests", "storage"]
  const CAPACITY: Path := ["status", "capacity", "storage"]
  const MATCH_LABELS: Path := ["spec", "selector", "matchLabels"]
  const TEMPLATE_LABELS: Path := ["spec", "template", "metadata", "labels"]

  function Kind(m: Fields): string {
    LookupString(m, ["kind"])
  }

  /** The spec members that belong to the live object, by kind. */
  function ImmutableFields(kind: string): seq<string> {
    if kind == "PersistentVolumeClaim" then PVC_FIELDS
    else if kind == "Service" then SERVICE_FIELDS
    else if kind in WORKLOADS then WORKLOAD_FIELDS
    else []
  }

  /** `spec` with the named members replaced by the live ones, absence included. */
  function TakeFrom(live: Fields, names: seq<string>, spec: Fields): Fields {
    (spec - set f | f in names) + map f | f in live && f in names :: live[f]
  }

  method TakeMembers(live: Fields, names: seq<string>, spec: Fields) returns (out: Fields)
    ensures out == TakeFrom(live, names, spec)
  {
    out := spec;
    for i := 0 to |names|
      invariant forall f :: Get(out, f) == if f in names[..i] then Get(live, f) else Get(spec, f)
    {
      if names[i] in live {
        out := out[names[i] := live[names[i]]];
      } else {
        out := out - {names[i]};
      }
      assert names[..i + 1] == names[..i] + [names[i]];
    }
    assert names[..|names|] == names;
    SameMembers(out, TakeFrom(live, names, spec));
  }

  // ------------------------------------------------------------ storage clamp

  /** The string at a path when it is a readable quantity. */
  function Quantity(m: Fields, path: Path, parse: Parse): Option<string>
    requires path != []
  {
    match Lookup(m, path)
    case Some(Str(s)) => if s != "" && parse(s).Some? then Some(s) else None
    case _ => None
  }

  function AtLeast(s: string, floor: string, parse: Parse): bool {
    parse(s).Some? && parse(floor).Some? && parse(s).value >= parse(floor).value
  }

  function Larger(request: Option<string>, capacity: Option<string>, parse: Parse): Option<string> {
    if request.None? then capacity
    else if capacity.None? || AtLeast(request.value, capacity.value, parse) then request
    else capacity
  }

  /** The larger of the live request and the live capacity; the request on a tie. */
  function StorageFloor(live: Fields, parse: Parse): Option<string> {
    Larger(Quantity(live, REQUEST, parse), Quantity(live, CAPACITY, parse), parse)
  }

  method PvcStorageFloor(live: Unstructured, parse: Parse) returns (floor: string, found: bool)
    ensures StorageFloor(live.content, parse) == if found then Some(floor) else None
  {
    floor, found := "", false;
    var qty := 0.0;
    var paths := [REQUEST, CAPACITY];
    for i := 0 to 2
      invariant found ==> parse(floor) == Some(qty)
      invariant i == 0 ==> !found
      invariant i == 1 ==>
                  Quantity(live.content, REQUEST, parse) == if found then Some(floor) else None
      invariant i == 2 ==>
                  StorageFloor(live.content, parse) == if found then Some(floor) else None
    {
      var v := Lookup(live.content, paths[i]);
      if v.Some? && v.value.Str? && v.value.s != "" {
        var q := parse(v.value.s);
        if q.Some? && (!found || q.value > qty) {
          floor, qty, found := v.value.s, q.value, true;
        }
      }
    }
  }

  /** The storage clamp at a path. */
  function ClampAt(spec: Fields, path: Path, floor: Option<string>, parse: Parse): Fields
    requires path != []
  {
    match floor
    case None => spec
    case Some(fl) =>
      if AtLeast(LookupString(spec, path), fl, parse) then spec else SetOrKeep(spec, path, Str(fl))
  }

  function Clamped(m: Fields, live: Fields, parse: Parse): Fields {
    ClampAt(m, REQUEST, StorageFloor(live, parse), parse)
  }

  method ClampPvcStorage(merged: Unstructured, live: Unstructured, parse: Parse)
    requires merged != live
    modifies merged
    ensures merged.content == Clamped(old(merged.content), live.content, parse)
  {
    var floor, found := PvcStorageFloor(live, parse);
    if !found {
      return;
    }
    var q := parse(LookupString(merged.content, REQUEST));
    if q.Some? && q.value >= parse(floor).value {
      return;
    }
    merged.content := SetOrKeep(merged.content, REQUEST, Str(floor));
  }

  // --------------------------------------------------- selector and labels

  /** The labels a value holds: none when it is not an object of strings. */
  function LabelsIn(v: Option<Value>): Fields {
    match v
    case Some(Obj(f)) => if AllStrings(f) then f else map[]
    case _ => map[]
  }

  /** Write a selector over the labels at a path. */
  function RelabelAt(spec: Fields, path: Path, selector: Fields): Fields
    requires path != []
  {
    SetOrKeep(spec, path, Obj(LabelsIn(Lookup(spec, path)) + selector))
  }

  function Reconciled(m: Fields): Fields {
    match LookupStringMap(m, MATCH_LABELS)
    case None => m
    case Some(selector) => if selector == map[] then m else RelabelAt(m, TEMPLATE_LABELS, selector)
  }

  method ReconcileSelectorLabels(obj: Unstructured)
    modifies obj
    ensures obj.content == Reconciled(old(obj.content))
  {
    var found := LookupStringMap(obj.content, MATCH_LABELS);
    if found.None? || |found.value| == 0 {
      return;
    }
    var labels := WriteOver(LabelsIn(Lookup(obj.content, TEMPLATE_LABELS)), found.value);
    obj.content := SetOrKeep(obj.content, TEMPLATE_LABELS, Obj(labels));
  }

  /** Every selector entry is written into the labels, in whatever order the map yields them. */
  method WriteOver(labels: Fields, selector: Fields) returns (out: Fields)
    ensures out == labels + selector
  {
    out := labels;
    var todo := selector.Keys;
    while todo != {}
      invariant todo <= selector.Keys
      invariant out + (map k | k in todo :: selector[k]) == labels + selector
      invariant forall k | k !in selector :: Get(out, k) == Get(labels, k)
      decreases todo
    {
      var k :| k in todo;
      todo := todo - {k};
      out := out[k := selector[k]];
    }
  }

  // ----------------------------------------------------------------- adoption

  predicate SpecIsObject(m: Fields) {
    "spec" in m && m["spec"].Obj?
  }

  function WithAdoptedSpec(m: Fields, live: Fields): Fields
    requires SpecIsObject(m) && SpecIsObject(live)
  {
    m["spec" := Obj(TakeFrom(live["spec"].fields, ImmutableFields(Kind(m)), m["spec"].fields))]
  }

  function Adopted(m: Fields, live: Fields, parse: Parse): Fields {
    if !SpecIsObject(m) || !SpecIsObject(live) then m
    else if Kind(m) == "PersistentVolumeClaim" then Clamped(WithAdoptedSpec(m, live), live, parse)
    else if Kind(m) == "Service" then WithAdoptedSpec(m, live)
    else if Kind(m) in WORKLOADS then Reconciled(WithAdoptedSpec(m, live))
    else m
  }

  method AdoptImmutableFields(merged: Unstructured, live: Unstructured, parse: Parse)
    requires merged != live
    modifies merged
    ensures merged.content == Adopted(old(merged.content), live.content, parse)
  {
    if !SpecIsObject(merged.content) || !SpecIsObject(live.content) {
      return;
    }
    var spec, liveSpec := merged.content["spec"].fields, live.content["spec"].fields;
    var kind := Kind(merged.content);
    if kind == "PersistentVolumeClaim" {
      spec := TakeMembers(liveSpec, PVC_FIELDS, spec);
      merged.content := merged.content["spec" := Obj(spec)];
      ClampPvcStorage(merged, live, parse);
    } else if kind == "Service" {
      spec := TakeMembers(liveSpec, SERVICE_FIELDS, spec);
      merged.content := merged.content["spec" := Obj(spec)];
    } else if kind in WORKLOADS {
      if "selector" in liveSpec {
        spec := spec["selector" := liveSpec["selector"]];
      } else {
        spec := spec - {"selector"};
      }
      SameMembers(spec, TakeFrom(liveSpec, WORKLOAD_FIELDS, merged.content["spec"].fields));
      merged.content := merged.content["spec" := Obj(spec)];
      ReconcileSelectorLabels(merged);
    }
  }

  // --------------------------------------------------- what adoption promises

  /** The spec member a correction may still write, by kind. */
  function CorrectedField(kind: string): set<string> {
    if kind == "PersistentVolumeClaim" then {"resources"}
    else if kind in WORKLOADS then {"template"}
    else {}
  }

  /** A nested write stays below the first step of its path. */
  lemma SetStaysBelow(m: Fields, path: Path, v: Value, k: string)
    requires |path| >= 2
    ensures k != path[0] ==> Get(SetOrKeep(m, path, v), k) == Get(m, k)
    ensures path[0] in m && m[path[0]].Obj? ==>
              Get(SetOrKeep(m, path, v), path[0]) ==
              Some(Obj(SetOrKeep(m[path[0]].fields, path[1..], v)))
  {
  }

  /**
   Immutable-field safety: after adoption every immutable spec member is the live one (absent
   when the live one is), and apart from the one member a correction writes, nothing else moved.
   */
  lemma ImmutableFieldsAdopted(m: Fields, live: Fields, parse: Parse, f: string)
    requires SpecIsObject(m) && SpecIsObject(live)
    ensures SpecIsObject(Adopted(m, live, parse))
    ensures f != "spec" ==> Get(Adopted(m, live, parse), f) == Get(m, f)
    ensures var spec := Adopted(m, live, parse)["spec"].fields;
            if f in ImmutableFields(Kind(m)) then Get(spec, f) == Get(live["spec"].fields, f)
            else f in CorrectedField(Kind(m)) || Get(spec, f) == Get(m["spec"].fields, f)
  {
    var w := WithAdoptedSpec(m, live);
    var spec := w["spec"].fields;
    assert Get(spec, f) == if f in ImmutableFields(Kind(m)) then Get(live["spec"].fields, f)
                           else Get(m["spec"].fields, f);
    if Kind(m) == "PersistentVolumeClaim" {
      if Clamped(w, live, parse) != w {
        var floor := Str(StorageFloor(live, parse).value);
        SetStaysBelow(w, REQUEST, floor, f);
        SetStaysBelow(spec, REQUEST[1..], floor, f);
      }
    } else if Kind(m) in WORKLOADS {
      if Reconciled(w) != w {
        var labels := Obj(LabelsIn(Lookup(w, TEMPLATE_LABELS)) + LookupStringMap(w, MATCH_LABELS).value);
        SetStaysBelow(w, TEMPLATE_LABELS, labels, f);
        SetStaysBelow(spec, TEMPLATE_LABELS[1..], labels, f);
      }
    }
  }

  predicate Settable(m: Fields, path: Path)
    requires path != []
  {
    SetNested(m, path, Null).Some?
  }

  predicate Contains(m: Fields, sub: Fields) {
    forall k | k in sub :: Get(m, k) == Some(sub[k])
  }

  lemma {:induction false} UnsettableIsAbsent(m: Fields, path: Path)
    requires path != [] && !Settable(m, path)
    ensures Lookup(m, path) == None
  {
    if v :| Lookup(m, path) == Some(v) {
      SetWhatIsThere(m, path, v);
      SettableForAny(m, path, v, Null);
    }
  }

  /** Clamping reaches the floor exactly when the path can be written, and leaves a request that was enough. */
  lemma ClampAtPromises(spec: Fields, path: Path, floor: string, parse: Parse)
    requires path != [] && parse("") == None && parse(floor).Some?
    ensures var t := ClampAt(spec, path, Some(floor), parse);
            && (Settable(spec, path) <==> AtLeast(LookupString(t, path), floor, parse))
            && (AtLeast(LookupString(spec, path), floor, parse) ==> t == spec)
            && (!AtLeast(LookupString(spec, path), floor, parse) && Settable(spec, path) ==>
                  LookupString(t, path) == floor)
  {
    SettableForAny(spec, path, Null, Str(floor));
    if Settable(spec, path) {
      SetThenLookup(spec, path, Str(floor));
    } else {
      UnsettableIsAbsent(spec, path);
    }
  }

  /** The labels at the path satisfy the selector, and what became of the others. */
  ghost predicate Relabelled(spec: Fields, sent: Fields, path: Path, selector: Fields)
    requires path != []
  {
    && (Settable(spec, path) <==>
          && Lookup(sent, path).Some? && Lookup(sent, path).value.Obj?
          && Contains(Lookup(sent, path).value.fields, selector))
    && forall labels | Lookup(spec, path) == Some(Obj(labels)) ::
         (Contains(LabelsIn(Lookup(sent, path)), labels - selector.Keys) <==>
          AllStrings(labels) || labels - selector.Keys == map[])
  }

  lemma RelabelAtPromises(spec: Fields, path: Path, selector: Fields)
    requires path != [] && AllStrings(selector)
    ensures Relabelled(spec, RelabelAt(spec, path, selector), path, selector)
  {
    var v := Obj(LabelsIn(Lookup(spec, path)) + selector);
    SettableForAny(spec, path, Null, v);
    if Settable(spec, path) {
      SetThenLookup(spec, path, v);
    } else {
      UnsettableIsAbsent(spec, path);
    }
    forall labels | Lookup(spec, path) == Some(Obj(labels))
      ensures Contains(LabelsIn(Lookup(RelabelAt(spec, path, selector), path)), labels - selector.Keys) <==>
              AllStrings(labels) || labels - selector.Keys == map[]
    {
      SetWhatIsThere(spec, path, Obj(labels));
      SettableForAny(spec, path, Obj(labels), v);
      OthersKept(labels, selector);
    }
  }

  lemma OthersKept(labels: Fields, selector: Fields)
    requires AllStrings(selector)
    ensures AllStrings(LabelsIn(Some(Obj(labels))) + selector)
    ensures Contains(LabelsIn(Some(Obj(labels))) + selector, labels - selector.Keys) <==>
            AllStrings(labels) || labels - selector.Keys == map[]
  {
    var kept, others := LabelsIn(Some(Obj(labels))) + selector, labels - selector.Keys;
    if !AllStrings(labels) && others != map[] {
      var k :| k in others;
      assert Get(kept, k) == None;
    }
  }

  lemma SelectorUntouched(m: Fields, v: Value)
    ensures Lookup(SetOrKeep(m, TEMPLATE_LABELS, v), MATCH_LABELS) == Lookup(m, MATCH_LABELS)
  {
    var r := SetOrKeep(m, TEMPLATE_LABELS, v);
    LookupInSteps(m, ["spec"], MATCH_LABELS[1..]);
    LookupInSteps(r, ["spec"], MATCH_LABELS[1..]);
    assert ["spec"] + MATCH_LABELS[1..] == MATCH_LABELS;
    SetStaysBelow(m, TEMPLATE_LABELS, v, "spec");
    if SpecIsObject(m) {
      SetStaysBelow(m["spec"].fields, TEMPLATE_LABELS[1..], v, "selector");
    }
  }

  /**
   After reconciliation the selector is unchanged and satisfied, exactly when the template's
   label path can be written; the template's own labels outside the selector survive exactly
   when they were all strings (or there were none outside it).
   */
  lemma SelectorSatisfied(m: Fields, selector: Fields)
    requires LookupStringMap(m, MATCH_LABELS) == Some(selector) && selector != map[]
    ensures Lookup(Reconciled(m), MATCH_LABELS) == Lookup(m, MATCH_LABELS)
    ensures Relabelled(m, Reconciled(m), TEMPLATE_LABELS, selector)
  {
    SelectorUntouched(m, Obj(LabelsIn(Lookup(m, TEMPLATE_LABELS)) + selector));
    RelabelAtPromises(m, TEMPLATE_LABELS, selector);
  }

  /**
   A claim never shrinks: whenever a live size is readable and the request can be written, the
   final request is readable and at least the live request and the live capacity; and it is the
   manifest's own string whenever that one was large enough.
   */
  lemma PvcNeverShrinks(m: Fields, live: Fields, parse: Parse)
    requires parse("") == None
    requires StorageFloor(live, parse).Some?
    ensures Settable(m, REQUEST) <==>
            AtLeast(LookupString(Clamped(m, live, parse), REQUEST), StorageFloor(live, parse).value, parse)
    ensures forall p | p in [REQUEST, CAPACITY] && Quantity(live, p, parse).Some? ::
              AtLeast(StorageFloor(live, parse).value, Quantity(live, p, parse).value, parse)
    ensures AtLeast(LookupString(m, REQUEST), StorageFloor(live, parse).value, parse) ==>
              Clamped(m, live, parse) == m
    ensures !AtLeast(LookupString(m, REQUEST), StorageFloor(live, parse).value, parse) &&
            Settable(m, REQUEST) ==>
              LookupString(Clamped(m, live, parse), REQUEST) == StorageFloor(live, parse).value
  {
    ClampAtPromises(m, REQUEST, StorageFloor(live, parse).value, parse);
  }
}
