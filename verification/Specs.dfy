/**
 The spec of an object that is updated in place, and when updating it again with the same
 manifest gives the same spec: for every kind, the exact condition.
 */
module Specs {
  import opened Options
  import opened Json
  import opened Merge
  import opened Adopt

  // ------------------------------------------------------ adoption, spec by spec

  function ClampedSpec(spec: Fields, floor: Option<string>, parse: Parse): Fields {
    ClampAt(spec, REQUEST[1..], floor, parse)
  }

  /** A selector to satisfy, if there is one. */
  function SpecSelector(spec: Fields): Fields {
    match LookupStringMap(spec, MATCH_LABELS[1..]) case Some(f) => f case None => map[]
  }

  function ReconciledSpec(spec: Fields): Fields {
    if SpecSelector(spec) == map[] then spec else RelabelAt(spec, TEMPLATE_LABELS[1..], SpecSelector(spec))
  }

  function FinishedSpec(kind: string, spec: Fields, floor: Option<string>, parse: Parse): Fields {
    if kind == "PersistentVolumeClaim" then ClampedSpec(spec, floor, parse)
    else if kind in WORKLOADS then ReconciledSpec(spec)
    else spec
  }

  function AdoptedSpec(kind: string, spec: Fields, liveSpec: Fields, floor: Option<string>, parse: Parse): Fields {
    FinishedSpec(kind, TakeFrom(liveSpec, ImmutableFields(kind), spec), floor, parse)
  }

  lemma SetInSpec(m: Fields, path: Path, v: Value)
    requires SpecIsObject(m) && |path| >= 2 && path[0] == "spec"
    ensures SetOrKeep(m, path, v) == m["spec" := Obj(SetOrKeep(m["spec"].fields, path[1..], v))]
  {
    if SetNested(m, path, v).None? {
      assert m["spec" := m["spec"]] == m;
    }
  }

  lemma LookupInSpec(m: Fields, path: Path)
    requires SpecIsObject(m) && |path| >= 2 && path[0] == "spec"
    ensures Lookup(m, path) == Lookup(m["spec"].fields, path[1..])
  {
  }

  lemma ClampedBySpec(m: Fields, live: Fields, parse: Parse)
    requires SpecIsObject(m)
    ensures Clamped(m, live, parse) ==
            m["spec" := Obj(ClampedSpec(m["spec"].fields, StorageFloor(live, parse), parse))]
  {
    LookupInSpec(m, REQUEST);
    assert m["spec" := m["spec"]] == m;
    if StorageFloor(live, parse).Some? {
      SetInSpec(m, REQUEST, Str(StorageFloor(live, parse).value));
    }
  }

  lemma ReconciledBySpec(m: Fields)
    requires SpecIsObject(m)
    ensures Reconciled(m) == m["spec" := Obj(ReconciledSpec(m["spec"].fields))]
  {
    LookupInSpec(m, MATCH_LABELS);
    LookupInSpec(m, TEMPLATE_LABELS);
    assert m["spec" := m["spec"]] == m;
    var selector := LookupStringMap(m, MATCH_LABELS);
    if selector.Some? && selector.value != map[] {
      SetInSpec(m, TEMPLATE_LABELS, Obj(LabelsIn(Lookup(m, TEMPLATE_LABELS)) + selector.value));
    }
  }

  /** Adoption only touches the spec, and there it is `AdoptedSpec`. */
  lemma AdoptedBySpec(m: Fields, live: Fields, parse: Parse)
    requires SpecIsObject(m) && SpecIsObject(live)
    ensures Adopted(m, live, parse) ==
            m["spec" := Obj(AdoptedSpec(Kind(m), m["spec"].fields, live["spec"].fields,
                                        StorageFloor(live, parse), parse))]
  {
    var w := WithAdoptedSpec(m, live);
    if Kind(m) == "PersistentVolumeClaim" {
      ClampedBySpec(w, live, parse);
    } else if Kind(m) == "Service" {
    } else if Kind(m) in WORKLOADS {
      ReconciledBySpec(w);
    } else {
      SameMembers(w["spec"].fields, m["spec"].fields);
      assert m["spec" := m["spec"]] == m;
    }
  }

  // ------------------------------------------------------------- own members

  /** The members of a manifest's spec that an update does not take from the live object. */
  function OwnSpec(n: Fields, kind: string): Fields {
    n - set f | f in ImmutableFields(kind)
  }

  /** Overlaying the manifest and taking back the immutable members is overlaying the manifest's own. */
  lemma TakenIsOwn(base: Fields, n: Fields, kind: string)
    ensures TakeFrom(base, ImmutableFields(kind), MergeMap(base, n)) == MergeMap(base, OwnSpec(n, kind))
  {
    var names, own := ImmutableFields(kind), OwnSpec(n, kind);
    forall k ensures Get(TakeFrom(base, names, MergeMap(base, n)), k) == Get(MergeMap(base, own), k) {
      MergeAt(base, n, k);
      MergeAt(base, own, k);
    }
    SameMembers(TakeFrom(base, names, MergeMap(base, n)), MergeMap(base, own));
  }

  lemma PartOntoWhole(over: Fields, names: set<string>)
    ensures MergeMap(over, over - names) == over <==> NullFree(over - names)
  {
    var part := over - names;
    MergeOntoItself(part);
    forall k ensures Get(MergeMap(over, part), k) == Get(over, k) <==> Get(MergeMap(part, part), k) == Get(part, k) {
      MergeAt(over, part, k);
      MergeAt(part, part, k);
    }
    if NullFree(part) {
      SameMembers(MergeMap(over, part), over);
    }
    if MergeMap(over, part) == over {
      SameMembers(MergeMap(part, part), part);
    }
  }

  // ---------------------------------------------------------------- the labels

  /** The labels are an object of strings, or no object at all. */
  predicate PlainLabels(v: Option<Value>) {
    v.Some? && v.value.Obj? ==> AllStrings(v.value.fields)
  }

  /**
   Labels that are not all strings hide each other from the correction. They stay hidden unless
   the manifest's own labels, laid over the selector that was written, are all strings and bring a
   key of their own.
   */
  predicate LabelsStay(labels: Option<Value>, setting: Setting, selector: Fields) {
    match setting
    case Sets(Obj(of)) =>
      PlainLabels(labels) || !AllStrings(MergeMap(selector, of)) || MergeMap(selector, of).Keys <= selector.Keys
    case _ => true
  }

  lemma StringLabelsSettle(labels: Fields, selector: Fields, over: Fields)
    requires AllStrings(labels) && AllStrings(selector) && MergeMap(labels, over) == labels
    ensures AllStrings(MergeMap(labels + selector, over))
    ensures MergeMap(labels + selector, over) + selector == labels + selector
  {
    var m := MergeMap(labels + selector, over);
    forall k
      ensures Get(m + selector, k) == Get(labels + selector, k)
      ensures k in m ==> m[k].Str?
    {
      MergeAt(labels, over, k);
      MergeAt(labels + selector, over, k);
    }
    SameMembers(m + selector, labels + selector);
  }

  /** Strings absorb what made them. */
  lemma StringsAbsorb(base: Fields, over: Fields)
    ensures AllStrings(MergeMap(base, over)) ==> MergeMap(MergeMap(base, over), over) == MergeMap(base, over)
    ensures AllStrings(over) ==> MergeMap(over, over) == over
  {
    if AllStrings(MergeMap(base, over)) {
      forall k | k in over ensures !over[k].Obj? {
        MergeAt(base, over, k);
      }
      MergeIdempotent(base, over);
    }
    if AllStrings(over) {
      MergeOntoItself(over);
    }
  }

  /** The labels read after the second overlay give the corrected labels again, exactly under that condition. */
  lemma LabelsStayExactly(was: Option<Value>, parent: bool, setting: Setting, selector: Fields)
    requires AllStrings(selector)
    ensures var labels := MergedAt(was, parent, setting);
            var v := LabelsIn(labels) + selector;
            LabelsIn(MergedAt(Some(Obj(v)), true, setting)) + selector == v <==> LabelsStay(labels, setting, selector)
  {
    var labels := MergedAt(was, parent, setting);
    match setting
    case Sets(Obj(of)) =>
      var live: Fields := if was.Some? && was.value.Obj? then was.value.fields else map[];
      StringsAbsorb(live, of);
      if PlainLabels(labels) {
        StringLabelsSettle(LabelsIn(labels), selector, of);
      } else {
        assert map[] + selector == selector;
        KeysCovered(MergeMap(selector, of), selector);
      }
    case _ =>
  }

  lemma KeysCovered(m: Fields, selector: Fields)
    ensures m + selector == selector <==> m.Keys <= selector.Keys
    ensures map[] + selector == selector
  {
    assert (m + selector).Keys == m.Keys + selector.Keys;
  }

  /** Relabelling after merging again restores the spec, exactly when the rest is clean and the labels stay. */
  lemma RelabelExactly(base: Fields, own: Fields, path: Path, selector: Fields)
    requires path != [] && AllStrings(selector)
    ensures var w := MergeMap(base, own);
            var t := RelabelAt(w, path, selector);
            RelabelAt(MergeMap(t, own), path, selector) == t <==>
            if Settable(w, path)
            then Clean(base, RemoveNested(own, path)) && LabelsStay(Lookup(w, path), SettingAt(own, path), selector)
            else Clean(base, own)
  {
    var w := MergeMap(base, own);
    var v := Obj(LabelsIn(Lookup(w, path)) + selector);
    SettableForAny(w, path, Null, v);
    if Settable(w, path) {
      RelabelSettable(base, own, path, selector);
    } else {
      RelabelUnsettable(base, own, path, selector);
    }
  }

  lemma RelabelSettable(base: Fields, own: Fields, path: Path, selector: Fields)
    requires path != [] && AllStrings(selector)
    requires var w := MergeMap(base, own); SetNested(w, path, Obj(LabelsIn(Lookup(w, path)) + selector)).Some?
    ensures var w := MergeMap(base, own);
            var t := RelabelAt(w, path, selector);
            RelabelAt(MergeMap(t, own), path, selector) == t <==>
            Clean(base, RemoveNested(own, path)) && LabelsStay(Lookup(w, path), SettingAt(own, path), selector)
  {
    var w := MergeMap(base, own);
    var v := Obj(LabelsIn(Lookup(w, path)) + selector);
    var t := SetNested(w, path, v).value;
    var w2 := MergeMap(t, own);
    var v2 := Obj(LabelsIn(Lookup(w2, path)) + selector);
    CorrectionSurvives(base, own, path, v);
    SettableForAny(w2, path, v, v2);
    SetThenLookup(w, path, v);
    SetThenLookup(w2, path, v2);
    ParentOfFound(t, path);
    PathFrame(base, own, path);
    PathFrame(t, own, path);
    LabelsStayExactly(Lookup(base, path), ParentIsObject(base, path), SettingAt(own, path), selector);
  }

  lemma RelabelUnsettable(base: Fields, own: Fields, path: Path, selector: Fields)
    requires path != [] && !Settable(MergeMap(base, own), path)
    ensures var w := MergeMap(base, own);
            RelabelAt(MergeMap(w, own), path, selector) == w <==> Clean(base, own)
    ensures RelabelAt(MergeMap(base, own), path, selector) == MergeMap(base, own)
  {
    var w := MergeMap(base, own);
    var w2 := MergeMap(w, own);
    var v2 := Obj(LabelsIn(Lookup(w2, path)) + selector);
    MergeIdempotent(base, own);
    UnsettableIsAbsent(w, path);
    SettableForAny(w, path, Null, Obj(LabelsIn(Lookup(w, path)) + selector));
    if SetNested(w2, path, v2).Some? {
      SetThenLookup(w2, path, v2);
    }
  }

  lemma {:induction false} ParentOfFound(m: Fields, path: Path)
    requires path != [] && Lookup(m, path).Some?
    ensures ParentIsObject(m, path)
    decreases |path|
  {
    if |path| > 1 {
      ParentOfFound(m[path[0]].fields, path[1..]);
    }
  }

  // ----------------------------------------------------------------- the clamp

  /** The request is as large as the capacity the object shows, if it shows one. */
  predicate Fits(request: string, capacity: Option<string>, parse: Parse) {
    capacity.None? || AtLeast(request, capacity.value, parse)
  }

  predicate Clamps(spec: Fields, path: Path, floor: Option<string>, parse: Parse)
    requires path != []
  {
    floor.Some? && !AtLeast(LookupString(spec, path), floor.value, parse) && Settable(spec, path)
  }

  /** Clamping after merging again restores the spec, exactly when the rest is clean and the request fits. */
  lemma ClampExactly(base: Fields, own: Fields, path: Path, floor: Option<string>, capacity: Option<string>,
      parse: Parse)
    requires path != [] && parse("") == None
    requires floor.Some? ==> parse(floor.value).Some?
    requires capacity.Some? ==> parse(capacity.value).Some?
    ensures var w := MergeMap(base, own);
            var t := ClampAt(w, path, floor, parse);
            ClampAt(MergeMap(t, own), path, Larger(Quantity(t, path, parse), capacity, parse), parse) == t <==>
            && Clean(base, if Clamps(w, path, floor, parse) then RemoveNested(own, path) else own)
            && (Settable(w, path) ==> Fits(LookupString(t, path), capacity, parse))
  {
    var w := MergeMap(base, own);
    if floor.Some? {
      SettableForAny(w, path, Null, Str(floor.value));
    }
    if Clamps(w, path, floor, parse) {
      ClampedAgain(base, own, path, floor.value, capacity, parse);
    } else {
      UnclampedAgain(base, own, path, capacity, parse);
    }
  }

  lemma ClampedAgain(base: Fields, own: Fields, path: Path, floor: string, capacity: Option<string>, parse: Parse)
    requires path != [] && parse("") == None && parse(floor).Some? && (capacity.Some? ==> parse(capacity.value).Some?)
    requires var w := MergeMap(base, own);
             SetNested(w, path, Str(floor)).Some? && !AtLeast(LookupString(w, path), floor, parse)
    ensures var t := SetNested(MergeMap(base, own), path, Str(floor)).value;
            && (ClampAt(MergeMap(t, own), path, Larger(Quantity(t, path, parse), capacity, parse), parse) == t <==>
                  Clean(base, RemoveNested(own, path)) && Fits(floor, capacity, parse))
            && LookupString(t, path) == floor
  {
    var w, v := MergeMap(base, own), Str(floor);
    var t := SetNested(w, path, v).value;
    var w2 := MergeMap(t, own);
    CorrectionSurvives(base, own, path, v);
    SetThenLookup(w, path, v);
    RequestAgain(base, own, t, path, floor, parse);
    ClampedMoves(t, w2, path, floor, capacity, parse);
  }

  /** What the second overlay shows at a clamped request: the floor, or the manifest's own, which was too small. */
  lemma RequestAgain(base: Fields, own: Fields, t: Fields, path: Path, floor: string, parse: Parse)
    requires path != [] && parse("") == None && !AtLeast(LookupString(MergeMap(base, own), path), floor, parse)
    requires Lookup(t, path) == Some(Str(floor))
    ensures var w2 := MergeMap(t, own);
            Lookup(w2, path) == Some(Str(floor)) || !AtLeast(LookupString(w2, path), floor, parse)
  {
    ParentOfFound(t, path);
    PathFrame(base, own, path);
    PathFrame(t, own, path);
  }

  lemma ClampedMoves(t: Fields, w2: Fields, path: Path, floor: string, capacity: Option<string>, parse: Parse)
    requires path != [] && parse("") == None && parse(floor).Some? && (capacity.Some? ==> parse(capacity.value).Some?)
    requires Lookup(t, path) == Some(Str(floor)) && SetNested(w2, path, Str(floor)).Some?
    requires Lookup(w2, path) == Some(Str(floor)) || !AtLeast(LookupString(w2, path), floor, parse)
    ensures ClampAt(w2, path, Larger(Quantity(t, path, parse), capacity, parse), parse) == t <==>
            SetNested(w2, path, Str(floor)) == Some(t) && Fits(floor, capacity, parse)
  {
    var floor2 := Larger(Some(floor), capacity, parse).value;
    SettableForAny(w2, path, Str(floor), Str(floor2));
    SetThenLookup(w2, path, Str(floor2));
    if Lookup(w2, path) == Some(Str(floor)) {
      SetWhatIsThere(w2, path, Str(floor));
    }
  }

  lemma UnclampedAgain(base: Fields, own: Fields, path: Path, capacity: Option<string>, parse: Parse)
    requires path != [] && parse("") == None && (capacity.Some? ==> parse(capacity.value).Some?)
    ensures var w := MergeMap(base, own);
            ClampAt(MergeMap(w, own), path, Larger(Quantity(w, path, parse), capacity, parse), parse) == w <==>
            Clean(base, own) && (Settable(w, path) ==> Fits(LookupString(w, path), capacity, parse))
  {
    var w := MergeMap(base, own);
    MergeIdempotent(base, own);
    PathFrame(base, own, path);
    PathFrame(w, own, path);
    ClampMoves(w, MergeMap(w, own), path, capacity, parse);
  }

  /** Whether clamping `w2` to the floor of `w` gives `w`. */
  lemma ClampMoves(w: Fields, w2: Fields, path: Path, capacity: Option<string>, parse: Parse)
    requires path != [] && parse("") == None && (capacity.Some? ==> parse(capacity.value).Some?)
    requires Lookup(w, path).Some? && Lookup(w, path).value.Str? ==> Lookup(w2, path) == Lookup(w, path)
    ensures ClampAt(w2, path, Larger(Quantity(w, path, parse), capacity, parse), parse) == w <==>
            w2 == w && (Settable(w, path) ==> Fits(LookupString(w, path), capacity, parse))
  {
    var floor := Larger(Quantity(w, path, parse), capacity, parse);
    if floor.Some? {
      SettableForAny(w, path, Null, Str(floor.value));
      if SetNested(w2, path, Str(floor.value)).Some? {
        SetThenLookup(w2, path, Str(floor.value));
      }
    }
  }

  // ------------------------------------------------------------ the whole spec

  /** When the spec of an object that has one stays as it is. */
  predicate SpecStays(kind: string, base: Fields, own: Fields, floor: Option<string>, capacity: Option<string>,
      parse: Parse) {
    var w, request, labels := MergeMap(base, own), REQUEST[1..], TEMPLATE_LABELS[1..];
    if kind == "PersistentVolumeClaim" then
      && Clean(base, if Clamps(w, request, floor, parse) then RemoveNested(own, request) else own)
      && (Settable(w, request) ==> Fits(LookupString(ClampAt(w, request, floor, parse), request), capacity, parse))
    else if kind in WORKLOADS && SpecSelector(w) != map[] && Settable(w, labels) then
      Clean(base, RemoveNested(own, labels)) && LabelsStay(Lookup(w, labels), SettingAt(own, labels), SpecSelector(w))
    else Clean(base, own)
  }

  lemma SpecStaysExactly(kind: string, base: Fields, n: Fields, floor: Option<string>, capacity: Option<string>,
      parse: Parse)
    requires parse("") == None
    requires floor.Some? ==> parse(floor.value).Some?
    requires capacity.Some? ==> parse(capacity.value).Some?
    ensures var t := AdoptedSpec(kind, MergeMap(base, n), base, floor, parse);
            AdoptedSpec(kind, MergeMap(t, n), t, Larger(Quantity(t, REQUEST[1..], parse), capacity, parse),
                parse) == t <==>
            SpecStays(kind, base, OwnSpec(n, kind), floor, capacity, parse)
  {
    var own := OwnSpec(n, kind);
    TakenIsOwn(base, n, kind);
    TakenIsOwn(FinishedSpec(kind, MergeMap(base, own), floor, parse), n, kind);
    FinishExactly(kind, base, own, floor, capacity, parse);
  }

  lemma FinishExactly(kind: string, base: Fields, own: Fields, floor: Option<string>, capacity: Option<string>,
      parse: Parse)
    requires parse("") == None && (kind in WORKLOADS ==> "selector" !in own)
    requires floor.Some? ==> parse(floor.value).Some?
    requires capacity.Some? ==> parse(capacity.value).Some?
    ensures var t := FinishedSpec(kind, MergeMap(base, own), floor, parse);
            FinishedSpec(kind, MergeMap(t, own), Larger(Quantity(t, REQUEST[1..], parse), capacity, parse),
                parse) == t <==>
            SpecStays(kind, base, own, floor, capacity, parse)
  {
    if kind == "PersistentVolumeClaim" {
      ClampExactly(base, own, REQUEST[1..], floor, capacity, parse);
    } else if kind in WORKLOADS {
      WorkloadExactly(base, own);
    } else {
      MergeIdempotent(base, own);
    }
  }

  lemma WorkloadExactly(base: Fields, own: Fields)
    requires "selector" !in own
    ensures var w, labels := MergeMap(base, own), TEMPLATE_LABELS[1..];
            ReconciledSpec(MergeMap(ReconciledSpec(w), own)) == ReconciledSpec(w) <==>
            if SpecSelector(w) != map[] && Settable(w, labels)
            then Clean(base, RemoveNested(own, labels)) &&
                LabelsStay(Lookup(w, labels), SettingAt(own, labels), SpecSelector(w))
            else Clean(base, own)
  {
    var w := MergeMap(base, own);
    var t := ReconciledSpec(w);
    SelectorKept(w, t, own);
    if SpecSelector(w) == map[] {
      MergeIdempotent(base, own);
    } else {
      RelabelExactly(base, own, TEMPLATE_LABELS[1..], SpecSelector(w));
    }
  }

  lemma SelectorKept(w: Fields, t: Fields, own: Fields)
    requires "selector" !in own && t == ReconciledSpec(w)
    ensures SpecSelector(MergeMap(t, own)) == SpecSelector(w)
  {
    SetStaysBelow(w, TEMPLATE_LABELS[1..], Obj(LabelsIn(Lookup(w, TEMPLATE_LABELS[1..])) + SpecSelector(w)),
        "selector");
    MergeAt(t, own, "selector");
    SameSelector(MergeMap(t, own), w);
  }

  lemma SameSelector(a: Fields, b: Fields)
    requires Get(a, "selector") == Get(b, "selector")
    ensures Lookup(a, MATCH_LABELS[1..]) == Lookup(b, MATCH_LABELS[1..])
  {
  }

  // ------------------------------------------------- a spec the manifest brings

  /** When a spec that was stored verbatim stays as it is, although the next update corrects it. */
  predicate NewSpecStays(kind: string, n: Fields, capacity: Option<string>, parse: Parse) {
    var request, labels, selector := REQUEST[1..], TEMPLATE_LABELS[1..], SpecSelector(n);
    && NullFree(OwnSpec(n, kind))
    && (kind == "PersistentVolumeClaim" && Settable(n, request) ==> Fits(LookupString(n, request), capacity, parse))
    && (kind in WORKLOADS && selector != map[] && Settable(n, labels) ==>
          Lookup(n, labels) == Some(Obj(LabelsIn(Lookup(n, labels)) + selector)))
  }

  lemma NewSpecStaysExactly(kind: string, n: Fields, capacity: Option<string>, parse: Parse)
    requires parse("") == None && (capacity.Some? ==> parse(capacity.value).Some?)
    ensures AdoptedSpec(kind, MergeMap(n, n), n, Larger(Quantity(n, REQUEST[1..], parse), capacity, parse),
        parse) == n <==>
            NewSpecStays(kind, n, capacity, parse)
  {
    TakenIsOwn(n, n, kind);
    PartOntoWhole(n, set f | f in ImmutableFields(kind));
    NewFinish(kind, n, OwnSpec(n, kind), capacity, parse);
  }

  lemma NewFinish(kind: string, n: Fields, own: Fields, capacity: Option<string>, parse: Parse)
    requires parse("") == None && (capacity.Some? ==> parse(capacity.value).Some?) && own == OwnSpec(n, kind)
    ensures var request, labels, selector := REQUEST[1..], TEMPLATE_LABELS[1..], SpecSelector(n);
            FinishedSpec(kind, MergeMap(n, own), Larger(Quantity(n, request, parse), capacity, parse), parse) == n <==>
            && MergeMap(n, own) == n
            && (kind == "PersistentVolumeClaim" && Settable(n, request) ==>
                  Fits(LookupString(n, request), capacity, parse))
            && (kind in WORKLOADS && selector != map[] && Settable(n, labels) ==>
                  Lookup(n, labels) == Some(Obj(LabelsIn(Lookup(n, labels)) + selector)))
  {
    if kind == "PersistentVolumeClaim" {
      NewClaim(n, own, capacity, parse);
    } else if kind in WORKLOADS {
      NewWorkload(n, own);
    }
  }

  lemma NewClaim(n: Fields, own: Fields, capacity: Option<string>, parse: Parse)
    requires parse("") == None && (capacity.Some? ==> parse(capacity.value).Some?)
    requires Get(own, "resources") == Get(n, "resources")
    ensures var request := REQUEST[1..];
            ClampedSpec(MergeMap(n, own), Larger(Quantity(n, request, parse), capacity, parse), parse) == n <==>
            MergeMap(n, own) == n && (Settable(n, request) ==> Fits(LookupString(n, request), capacity, parse))
  {
    NewStrings(n, own, REQUEST[1..]);
    ClampMoves(n, MergeMap(n, own), REQUEST[1..], capacity, parse);
  }

  lemma NewWorkload(n: Fields, own: Fields)
    requires "selector" !in own && Get(own, "template") == Get(n, "template")
    ensures var labels, selector := TEMPLATE_LABELS[1..], SpecSelector(n);
            ReconciledSpec(MergeMap(n, own)) == n <==>
            MergeMap(n, own) == n &&
            (selector != map[] && Settable(n, labels) ==>
               Lookup(n, labels) == Some(Obj(LabelsIn(Lookup(n, labels)) + selector)))
  {
    NewLabels(n, own, TEMPLATE_LABELS[1..], SpecSelector(n));
    MergeAt(n, own, "selector");
    SameSelector(MergeMap(n, own), n);
  }

  /** A string or an object of strings that the manifest brings is there again after the second overlay. */
  lemma NewStrings(n: Fields, own: Fields, path: Path)
    requires path != [] && Get(own, path[0]) == Get(n, path[0])
    ensures Lookup(n, path).Some? && Lookup(n, path).value.Str? ==> Lookup(MergeMap(n, own), path) == Lookup(n, path)
    ensures Lookup(n, path).Some? && Lookup(n, path).value.Obj? && AllStrings(Lookup(n, path).value.fields) ==>
              Lookup(MergeMap(n, own), path) == Lookup(n, path)
  {
    PathFrame(n, own, path);
    VerbatimAt(n, path);
    assert SettingAt(own, path) == SettingAt(n, path);
    if Lookup(n, path).Some? && Lookup(n, path).value.Obj? {
      StringsAbsorb(map[], Lookup(n, path).value.fields);
    }
  }

  lemma NewLabels(n: Fields, own: Fields, path: Path, selector: Fields)
    requires path != [] && Get(own, path[0]) == Get(n, path[0]) && AllStrings(selector)
    ensures RelabelAt(MergeMap(n, own), path, selector) == n <==>
            MergeMap(n, own) == n &&
            (Settable(n, path) ==> Lookup(n, path) == Some(Obj(LabelsIn(Lookup(n, path)) + selector)))
  {
    var w2 := MergeMap(n, own);
    var v, v2 := Obj(LabelsIn(Lookup(n, path)) + selector), Obj(LabelsIn(Lookup(w2, path)) + selector);
    SettableForAny(n, path, Null, v);
    NewStrings(n, own, path);
    if SetNested(w2, path, v2).Some? {
      SetThenLookup(w2, path, v2);
      if Lookup(w2, path) == Some(v2) {
        SetWhatIsThere(w2, path, v2);
      }
    }
  }
}
