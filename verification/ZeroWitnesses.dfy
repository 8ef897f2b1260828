/** Small models on which the planner, the validator and the restore part ways. */
module ZeroWitnesses {
  import opened Prelude
  import opened Decimal
  import opened ZeroModel
  import opened ZeroPlan
  import T = ZeroTransition
  import A = ZeroAgreement
  import C = ZeroClones

  const METADATA: map<string, Json> := map["groups" := Null, "meta" := Null, "timestamp" := Null]

  function Element(id: string, kind: string, rest: Fields): Fields {
    [("elem_id", Str(id))] + ([("type", Str(kind))] + rest)
  }

  lemma GetCons(name: string, value: Json, rest: Fields, key: string)
    ensures Get([(name, value)] + rest, key) == if name == key then Some(value) else Get(rest, key)
  {
    assert ([(name, value)] + rest)[1..] == rest;
  }

  lemma ElementReads(id: string, kind: string, rest: Fields, key: string)
    ensures Get(Element(id, kind, rest), key)
         == if key == "elem_id" then Some(Str(id)) else if key == "type" then Some(Str(kind)) else Get(rest, key)
  {
    GetCons("elem_id", Str(id), [("type", Str(kind))] + rest, key);
    GetCons("type", Str(kind), rest, key);
  }

  lemma ElementIs(id: string, kind: string, rest: Fields)
    requires Canonical(id) && kind in BASIC_TYPES
    ensures var f := Element(id, kind, rest); HasId(f) && Id(f) == id && Type(f) == Some(Str(kind)) && Basic(f)
  {
    ElementReads(id, kind, rest, "elem_id");
    ElementReads(id, kind, rest, "type");
  }

  lemma OneField(name: string, value: Json, key: string)
    ensures Get([(name, value)], key) == if name == key then Some(value) else None
  {
    assert [(name, value)] == [(name, value)] + [];
    GetCons(name, value, [], key);
  }

  lemma StripCons(name: string, value: Json, rest: Fields)
    ensures Strip([(name, value)] + rest) == (if name in CLONE_FIELDS then [] else [(name, value)]) + Strip(rest)
  {
    assert ([(name, value)] + rest)[1..] == rest;
  }

  lemma ElementStrip(id: string, kind: string, rest: Fields)
    ensures Strip(Element(id, kind, rest)) == [("type", Str(kind))] + Strip(rest)
  {
    StripCons("elem_id", Str(id), [("type", Str(kind))] + rest);
    StripCons("type", Str(kind), rest);
  }

  // ----- Patches of one element -----

  function Alone(f: Fields): Model { Model(map[0 := f], METADATA) }

  lemma MetadataNames()
    ensures forall key :: key in METADATA ==> !(key != "" && AllDigits(key))
  {
    assert !IsDigit("groups"[0]) && !IsDigit("meta"[0]) && !IsDigit("timestamp"[0]);
  }

  lemma AloneIs(f: Fields)
    requires HasId(f)
    ensures WellFormed(Alone(f)) && HasElement(Alone(f), Id(f)) && KeyOf(Alone(f), Id(f)) == 0
  {
    MetadataNames();
    hide AllDigits;
    assert 0 in Alone(f).elements;
  }

  /** A link that is a number: the patch is accepted, and once it is written the old link can never be put back. */
  lemma NumericLinkIsLost(clock: Clock, convert: Conversion)
    ensures var m := Alone(Element("1", "text", [(LINK, Num(7))]));
            var planned := PlanZero(m, LeafPatch("1", "x"), clock, convert);
            && planned.Ok? && (exists a :: T.Accepted(m, planned.value, a))
            && (forall later, a :: A.SameButTimestamp(planned.value, later) ==> !T.Accepted(later, m, a))
  {
    var f := Element("1", "text", [(LINK, Num(7))]);
    ElementIs("1", "text", [(LINK, Num(7))]);
    ElementReads("1", "text", [(LINK, Num(7))], LINK);
    OneField(LINK, Num(7), LINK);
    hide Element;
    Unrestorable(f, LeafPatch("1", "x"), clock, convert);
  }

  /** A breakpoint that is text: the same. */
  lemma TextBreakpointIsLost(clock: Clock, convert: Conversion)
    ensures var m := Alone(Element("1", "shape", [(LEFT_480, Str("10"))]));
            var planned := PlanZero(m, ResponsivePatch("1", 5), clock, convert);
            && planned.Ok? && (exists a :: T.Accepted(m, planned.value, a))
            && (forall later, a :: A.SameButTimestamp(planned.value, later) ==> !T.Accepted(later, m, a))
  {
    var f := Element("1", "shape", [(LEFT_480, Str("10"))]);
    ElementIs("1", "shape", [(LEFT_480, Str("10"))]);
    ElementReads("1", "shape", [(LEFT_480, Str("10"))], LEFT_480);
    OneField(LEFT_480, Str("10"), LEFT_480);
    hide Element;
    Unrestorable(f, ResponsivePatch("1", 5), clock, convert);
  }

  lemma Unrestorable(f: Fields, r: Request, clock: Clock, convert: Conversion)
    requires HasId(f) && r.elementId == Id(f) && A.IsPatch(r) && !r.PropertyPatch?
    requires A.Patchable(f, r) && !A.Restorable(f, r) && Get(f, A.PatchKey(r)) != Some(A.PatchValue(r))
    ensures var planned := PlanZero(Alone(f), r, clock, convert);
            && planned.Ok? && (exists a :: T.Accepted(Alone(f), planned.value, a))
            && (forall later, a :: A.SameButTimestamp(planned.value, later) ==> !T.Accepted(later, Alone(f), a))
  {
    hide T.Accepted, A.Restorable, A.SameButTimestamp, WellFormed;
    var m := Alone(f);
    AloneIs(f);
    var n := Patched(m, r.elementId, A.PatchKey(r), A.PatchValue(r));
    assert PlanZero(m, r, clock, convert) == Ok(n);
    PatchMoves(m, r);
    hide PlanZero, Patched, Alone;
    var op := AcceptedOnce(m, r, clock, convert);
    forall later | A.SameButTimestamp(n, later) ensures forall a :: !T.Accepted(later, m, a) {
      A.RestoreAcceptedExactly(m, r, clock, convert, later);
    }
  }

  lemma PatchMoves(m: Model, r: Request)
    requires A.IsPatch(r) && WellFormed(m) && HasElement(m, r.elementId)
    requires Get(m.elements[KeyOf(m, r.elementId)], A.PatchKey(r)) != Some(A.PatchValue(r))
    ensures Patched(m, r.elementId, A.PatchKey(r), A.PatchValue(r)) != m
  {
    var k := KeyOf(m, r.elementId);
    SetGet(m.elements[k], A.PatchKey(r), A.PatchValue(r), A.PatchKey(r));
  }

  /** A property patch of a text link passes only as the older link patch, not as what was asked for. */
  lemma LinkPropertyIsReclassified(clock: Clock, convert: Conversion)
    ensures var m := Alone(Element("1", "text", [(LINK, Str("a"))]));
            var planned := PlanZero(m, PropertyPatch("1", "text", LINK, KString, Str("b")), clock, convert);
            && planned.Ok?
            && (exists a :: T.Accepted(m, planned.value, a))
            && !T.Accepted(m, planned.value, T.Authorization(T.ZeroPropertyPatch, "1"))
  {
    var f := Element("1", "text", [(LINK, Str("a"))]);
    ElementIs("1", "text", [(LINK, Str("a"))]);
    ElementReads("1", "text", [(LINK, Str("a"))], LINK);
    OneField(LINK, Str("a"), LINK);
    hide Element, T.Accepted, WellFormed;
    var m := Alone(f);
    AloneIs(f);
    var r := PropertyPatch("1", "text", LINK, KString, Str("b"));
    LinkIsWritable();
    hide WritableProperty, Basic, HasId;
    var n := Patched(m, "1", LINK, Str("b"));
    assert PlanZero(m, r, clock, convert) == Ok(n);
    PatchMoves(m, r);
    assert A.Reclassified(r);
    hide PlanZero, Patched, Alone, LINK;
    var op := AcceptedOnce(m, r, clock, convert);
  }

  lemma AcceptedOnce(m: Model, r: Request, clock: Clock, convert: Conversion) returns (op: T.Operation)
    requires A.IsPatch(r) && PlanZero(m, r, clock, convert).Ok? && PlanZero(m, r, clock, convert).value != m
    ensures A.AcceptedOnlyAs(m, PlanZero(m, r, clock, convert).value, r.elementId, op)
    ensures T.Accepted(m, PlanZero(m, r, clock, convert).value, T.Authorization(op, r.elementId))
    ensures op == A.RequestedOperation(r) <==> !A.Reclassified(r)
  {
    hide T.Accepted, PlanZero, A.Reclassified;
    A.PlannedPatchIsAccepted(m, r, clock, convert);
    op :| A.AcceptedOnlyAs(m, PlanZero(m, r, clock, convert).value, r.elementId, op)
          && (op == A.RequestedOperation(r) <==> !A.Reclassified(r));
  }

  lemma LinkIsWritable()
    ensures WritableProperty(LINK)
  {
  }

  // ----- Clones -----

  const PLACE: Fields := [("left", Num(0))] + ([("top", Num(0))] + [("zindex", Num(0))])

  function Box(id: string): Fields { Element(id, "shape", PLACE) }

  lemma BoxIs(id: string)
    requires Canonical(id)
    ensures HasId(Box(id)) && Id(Box(id)) == id && Type(Box(id)) == Some(Str("shape")) && Basic(Box(id))
    ensures Get(Box(id), "left") == Some(Num(0)) && Get(Box(id), "top") == Some(Num(0)) && Get(Box(id), "zindex") == Some(Num(0))
  {
    ElementIs(id, "shape", PLACE);
    ElementReads(id, "shape", PLACE, "left");
    ElementReads(id, "shape", PLACE, "top");
    ElementReads(id, "shape", PLACE, "zindex");
    PlaceReads("left");
    PlaceReads("top");
    PlaceReads("zindex");
  }

  lemma PlaceReads(key: string)
    requires key in {"left", "top", "zindex"}
    ensures Get(PLACE, key) == Some(Num(0))
  {
    GetCons("left", Num(0), [("top", Num(0))] + [("zindex", Num(0))], key);
    GetCons("top", Num(0), [("zindex", Num(0))], key);
    OneField("zindex", Num(0), key);
  }

  lemma BoxesAreTwins(a: string, b: string)
    ensures Strip(Box(a)) == Strip(Box(b))
  {
    ElementStrip(a, "shape", PLACE);
    ElementStrip(b, "shape", PLACE);
  }

  /** Two boxes that differ in nothing but their id, at the keys 0 and `key`. */
  function Boxes(key: nat): Model { Model(map[0 := Box("1"), key := Box("2")], METADATA) }

  lemma BoxesAre(key: nat)
    requires 0 < key <= 2
    ensures WellFormed(Boxes(key)) && HasElement(Boxes(key), "1") && KeyOf(Boxes(key), "1") == 0
    ensures Ids(Boxes(key)) == {"1", "2"}
  {
    MetadataNames();
    BoxIs("1");
    BoxIs("2");
    hide AllDigits, Box;
    var m := Boxes(key);
    assert m.elements[0] == Box("1") && m.elements[key] == Box("2");
    assert 0 in m.elements && key in m.elements;
    assert WellFormed(m);
    assert Id(m.elements[0]) == "1" && Id(m.elements[key]) == "2";
  }

  /** A clock that stands still at five. */
  const AT_FIVE: Clock := seq(ATTEMPTS, i => 5)

  lemma FiveIsFree()
    ensures Show(5) !in {"1", "2"}
  {
    ShowValue(5);
    assert Show(5) == [Digit(5)];
    assert DigitValue('1') == 1 && DigitValue('2') == 2;
  }

  /** The planner clones a box that has a twin, and no operation accepts that clone. */
  lemma TwinCloneIsRefused(convert: Conversion)
    ensures var planned := PlanZero(Boxes(1), ShapeClone("1", 10, 10), AT_FIVE, convert);
            planned.Ok? && forall a :: !T.Accepted(Boxes(1), planned.value, a)
  {
    hide T.Accepted, WellFormed, Box, Strip, Basic, Type, HasId, CloneOf;
    BoxesAre(1);
    BoxIs("1");
    BoxIs("2");
    BoxesAreTwins("1", "2");
    FiveIsFree();
    var m := Boxes(1);
    ClonePlanned(m, "shape", convert);
    assert !C.NoTwin(m, 0) by { assert 1 in m.elements; }
    C.CloneAcceptedExactly(m, ShapeClone("1", 10, 10), AT_FIVE, convert);
  }

  lemma ClonePlanned(m: Model, kind: string, convert: Conversion)
    requires kind == "shape" && WellFormed(m) && HasElement(m, "1") && m.elements[KeyOf(m, "1")] == Box("1")
    requires Show(5) !in Ids(m) && MaxKey(m.elements) <= 2
    ensures PlanZero(m, ShapeClone("1", 10, 10), AT_FIVE, convert).Ok?
    ensures PlanZero(m, ElementClone("1", kind, 10, 10), AT_FIVE, convert).Ok?
  {
    hide WellFormed, Box, Basic, Type, HasId, CloneOf, Ids;
    BoxIs("1");
    FirstIsFree(Ids(m));
  }

  lemma FirstIsFree(ids: set<string>)
    requires Show(5) !in ids
    ensures NextElementId(ids, AT_FIVE, 0).Some?
  {
    assert !Taken(ids, AT_FIVE, 0);
  }

  /** A generic clone of a shape passes only as a shape clone. */
  lemma ShapeCloneIsReclassified(convert: Conversion)
    ensures var m := Alone(Box("1"));
            var planned := PlanZero(m, ElementClone("1", "shape", 10, 10), AT_FIVE, convert);
            && planned.Ok?
            && T.Accepted(m, planned.value, T.Authorization(T.ZeroShapeClone, "1"))
            && !T.Accepted(m, planned.value, T.Authorization(T.ZeroElementClone, "1"))
  {
    hide T.Accepted, WellFormed, Box, Strip, Basic, Type, CloneOf, HasId;
    BoxIs("1");
    AloneIs(Box("1"));
    FiveIsFree();
    var m := Alone(Box("1"));
    assert Ids(m) == {"1"};
    ClonePlanned(m, "shape", convert);
    C.CloneAcceptedExactly(m, ElementClone("1", "shape", 10, 10), AT_FIVE, convert);
  }

  /** Removing the box at key 2 from keys 0 and 2 is accepted, and no write that puts it back is. */
  lemma GapCannotBeRefilled()
    ensures var m, n := Boxes(2), Alone(Box("1"));
            && T.Accepted(m, n, T.Authorization(T.ZeroShapeClone, "1"))
            && (forall later, a :: A.SameButTimestamp(n, later) ==> !T.Accepted(later, m, a))
  {
    hide WellFormed, Box, Strip, Basic, Type, HasId, T.Authorized, T.Removed;
    var m, n := Boxes(2), Alone(Box("1"));
    BoxesAre(2);
    BoxIs("1");
    BoxIs("2");
    AloneIs(Box("1"));
    LastRemoved();
    A.NoRebinding(m, n);
    assert m.elements.Keys - n.elements.Keys == {2};
    assert 0 in T.Sources(n.elements, m.elements[2]) by { BoxesAreTwins("1", "2"); }
    C.OnlyRemoved(m, n, 2, T.Authorization(T.ZeroShapeClone, "1"));
    assert T.Accepted(m, n, T.Authorization(T.ZeroShapeClone, "1"));
    assert MaxKey(n.elements) == 0;
    hide T.Accepted;
    forall later | A.SameButTimestamp(n, later) ensures forall a :: !T.Accepted(later, m, a) {
      C.RemovalUndoneExactly(m, n, 2, T.Authorization(T.ZeroShapeClone, "1"), later);
    }
  }

  lemma LastRemoved()
    ensures WellFormed(Boxes(2)) && WellFormed(Alone(Box("1"))) && T.Removed(Boxes(2), Alone(Box("1")), 2)
  {
    hide IdsUnique, Box, Strip, Basic, Type, HasId, WellFormed, T.GeometryFinite, T.Sources, AllDigits;
    var m, n := Boxes(2), Alone(Box("1"));
    BoxesAre(2);
    OneBox();
    OneSource();
    assert m.elements.Keys - n.elements.Keys == {2};
    assert m.elements[2] == Box("2");
    assert MaxKey(m.elements) == 2;
  }

  lemma OneBox()
    ensures WellFormed(Alone(Box("1"))) && Ids(Alone(Box("1"))) == {"1"}
    ensures HasId(Box("2")) && Id(Box("2")) == "2" && Basic(Box("2")) && T.GeometryFinite(Box("2"))
  {
    BoxIs("1");
    BoxIs("2");
    AloneIs(Box("1"));
    hide Box, Basic, AllDigits, WellFormed;
    assert Alone(Box("1")).elements[0] == Box("1") && 0 in Alone(Box("1")).elements;
  }

  lemma OneSource()
    ensures T.Sources(Alone(Box("1")).elements, Box("2")) == {0}
  {
    BoxIs("1");
    BoxIs("2");
    BoxesAreTwins("1", "2");
    hide Box, Strip, Basic, Type;
  }
}
