/** What a planned model holds, field by field, and exactly when a plan is refused. */
module ZeroPlanned {
  import opened Prelude
  import opened Decimal
  import opened ZeroModel
  import opened ZeroPlan
  import A = ZeroAgreement
  import T = ZeroTransition
  import C = ZeroClones

  // ----- Patches -----

  /** The field and the value that a patch asks for. */
  function Wanted(r: Request): (string, Json)
    requires A.IsPatch(r)
  {
    match r
    case PropertyPatch(_, _, property, _, value) => (property, value)
    case LeafPatch(_, link) => ("link", Str(link))
    case ResponsivePatch(_, left480) => ("left-res-480", Num(left480))
  }

  /** A planned patch sets that field of that element, and leaves every other field, element and the metadata alone. */
  lemma PatchSetsOneField(m: Model, r: Request, clock: Clock, convert: Conversion)
    requires A.IsPatch(r) && PlanZero(m, r, clock, convert).Ok?
    ensures WellFormed(m) && HasElement(m, r.elementId)
    ensures var n := PlanZero(m, r, clock, convert).value;
            var k := KeyOf(m, r.elementId);
            && n.elements.Keys == m.elements.Keys && n.metadata == m.metadata
            && (forall j :: j in m.elements && j != k ==> n.elements[j] == m.elements[j])
            && (forall key :: Get(n.elements[k], key) == if key == Wanted(r).0 then Some(Wanted(r).1) else Get(m.elements[k], key))
  {
    A.PlannedPatch(m, r, clock, convert);
    var k := KeyOf(m, r.elementId);
    forall key {:trigger Get(m.elements[k], key)}
      ensures Get(Set(m.elements[k], A.PatchKey(r), A.PatchValue(r)), key)
           == if key == A.PatchKey(r) then Some(A.PatchValue(r)) else Get(m.elements[k], key)
    {
      SetGet(m.elements[k], A.PatchKey(r), A.PatchValue(r), key);
    }
    hide PlanZero, WellFormed, Set, Get;
  }

  // ----- Clones -----

  /** The number that a coordinate stands for: nothing is zero, a number is itself, anything else is what the host makes of it. */
  predicate StandsFor(v: Option<Json>, n: int, convert: Conversion) {
    if v.None? || v.value.Null? then n == 0
    else if v.value.Num? then v.value.n == n
    else convert(v.value) == Some(n)
  }

  /** A whole number in writing, with a minus sign when it is negative. */
  predicate WrittenAs(s: string, n: int) {
    if n < 0 then s != [] && s[0] == '-' && AllDigits(s[1..]) && Value(s[1..]) == -n
    else s != [] && AllDigits(s) && Value(s) == n
  }

  /** The new coordinate: text where it was text, else a number. */
  predicate Placed(was: Option<Json>, now: Option<Json>, n: int) {
    now.Some?
    && (if was.Some? && was.value.Str? then now.value.Str? && WrittenAs(now.value.s, n) else now.value == Num(n))
  }

  lemma ShownReadsBack(n: int)
    ensures WrittenAs(ShowInt(n), n)
  {
    if n < 0 {
      ShowValue(-n);
      assert ShowInt(n)[1..] == Show(-n);
    } else {
      ShowValue(n);
    }
  }

  lemma MovedIsPlaced(f: Fields, key: string, next: int)
    ensures Placed(Get(f, key), Some(Moved(f, key, next)), next)
  {
    ShownReadsBack(next);
    hide Get, ShowInt, WrittenAs;
  }

  predicate OwnFields(key: string) { key == "elem_id" || key == "left" || key == "top" || key == "zindex" }

  lemma CloneFields(m: Model, source: Fields, newId: string, left: int, top: int, convert: Conversion)
    ensures var clone := CloneOf(m, source, newId, left, top, convert);
            && Get(clone, "elem_id") == Some(Str(newId))
            && Placed(Get(source, "left"), Get(clone, "left"), left) && Placed(Get(source, "top"), Get(clone, "top"), top)
            && Get(clone, "zindex") == Some(Num(TopLayer(m, convert) + 1))
            && (forall key :: !OwnFields(key) ==> Get(clone, key) == Get(source, key))
  {
    hide Get, Set, Moved, Placed;
    var left', top' := Moved(source, "left", left), Moved(source, "top", top);
    var named := Set(source, "elem_id", Str(newId));
    var placed := Set(named, "left", left');
    var stacked := Set(placed, "top", top');
    var z := Num(TopLayer(m, convert) + 1);
    var clone := Set(stacked, "zindex", z);
    MovedIsPlaced(source, "left", left);
    MovedIsPlaced(source, "top", top);
    forall key
      ensures Get(clone, key)
           == if key == "zindex" then Some(z) else if key == "top" then Some(top') else if key == "left" then Some(left')
              else if key == "elem_id" then Some(Str(newId)) else Get(source, key)
    {
      SetGet(stacked, "zindex", z, key);
      SetGet(placed, "top", top', key);
      SetGet(named, "left", left', key);
      SetGet(source, "elem_id", Str(newId), key);
    }
  }

  /** What a clone of the element at `k` holds when it was moved by the two offsets. */
  ghost predicate CloneHolds(m: Model, k: nat, clone: Fields, dx: int, dy: int, convert: Conversion)
    requires k in m.elements
  {
    exists left: int, top: int ::
      && StandsFor(Get(m.elements[k], "left"), left, convert) && StandsFor(Get(m.elements[k], "top"), top, convert)
      && Placed(Get(m.elements[k], "left"), Get(clone, "left"), left + dx)
      && Placed(Get(m.elements[k], "top"), Get(clone, "top"), top + dy)
  }

  /**
   A planned clone is one new element at the key after the last: a new free id, its source's place moved right and
   down by the offsets, a layer above all others, and every other field as in its source; nothing else changes.
   */
  lemma CloneIsMovedCopy(m: Model, r: Request, clock: Clock, convert: Conversion)
    requires C.IsClone(r) && PlanZero(m, r, clock, convert).Ok?
    ensures WellFormed(m) && HasElement(m, r.elementId)
    ensures var n := PlanZero(m, r, clock, convert).value;
            var k, key := KeyOf(m, r.elementId), MaxKey(m.elements) + 1;
            && key !in m.elements && n.metadata == m.metadata && n.elements.Keys == m.elements.Keys + {key}
            && (forall j :: j in m.elements ==> n.elements[j] == m.elements[j])
            && HasId(n.elements[key]) && Id(n.elements[key]) !in Ids(m)
            && NextElementId(Ids(m), clock, 0) == Some(Id(n.elements[key]))
            && CloneHolds(m, k, n.elements[key], r.offsetLeft, r.offsetTop, convert)
            && Get(n.elements[key], "zindex") == Some(Num(TopLayer(m, convert) + 1))
            && (forall field :: !OwnFields(field) ==> Get(n.elements[key], field) == Get(m.elements[k], field))
  {
    hide WellFormed, CloneOf, Coordinate, Get, Placed, StandsFor, NextElementId, Canonical, PlanZero, HasElement;
    PlanZeroClones(m, r, clock, convert);
    var k, key := KeyOf(m, r.elementId), MaxKey(m.elements) + 1;
    var source := m.elements[k];
    var newId := NextElementId(Ids(m), clock, 0).value;
    var left, top := Coordinate(source, "left", convert).value, Coordinate(source, "top", convert).value;
    var clone := CloneOf(m, source, newId, left + r.offsetLeft, top + r.offsetTop, convert);
    CloneFields(m, source, newId, left + r.offsetLeft, top + r.offsetTop, convert);
    CoordinateStands(source, "left", convert);
    CoordinateStands(source, "top", convert);
    assert CloneHolds(m, k, clone, r.offsetLeft, r.offsetTop, convert);
    assert key !in m.elements;
  }

  lemma PlanZeroClones(m: Model, r: Request, clock: Clock, convert: Conversion)
    requires C.IsClone(r) && PlanZero(m, r, clock, convert).Ok?
    ensures WellFormed(m) && HasElement(m, r.elementId)
    ensures var k, key := KeyOf(m, r.elementId), MaxKey(m.elements) + 1;
            var source := m.elements[k];
            var newId := NextElementId(Ids(m), clock, 0);
            var left, top := Coordinate(source, "left", convert), Coordinate(source, "top", convert);
            && newId.Some? && left.Some? && top.Some?
            && PlanZero(m, r, clock, convert).value
            == m.(elements := m.elements[key := CloneOf(m, source, newId.value, left.value + r.offsetLeft,
                                                        top.value + r.offsetTop, convert)])
  {
    hide WellFormed, CloneOf, Coordinate, NextElementId, Type, Ids;
  }

  lemma CoordinateStands(f: Fields, key: string, convert: Conversion)
    ensures Coordinate(f, key, convert).Some? ==> StandsFor(Get(f, key), Coordinate(f, key, convert).value, convert)
    ensures Coordinate(f, key, convert).None? ==> forall n :: !StandsFor(Get(f, key), n, convert)
  {
    hide Get;
  }

  // ----- Refusals -----

  /** The type a request expects of its element. */
  function TypeOf(r: Request): string {
    match r
    case PropertyPatch(_, t, _, _, _) => t
    case LeafPatch(_, _) => "text"
    case ResponsivePatch(_, _) => "shape"
    case ShapeClone(_, _, _) => "shape"
    case ElementClone(_, t, _, _) => t
  }

  /** The older patches ask for one type; the others also for a basic one. */
  predicate Fitting(f: Fields, r: Request) {
    IsType(f, TypeOf(r)) && (r.LeafPatch? || r.ResponsivePatch? || Basic(f))
  }

  /** The property is writable, is there, and holds a value of the kind that was expected and is offered. */
  predicate InScope(f: Fields, r: Request)
    requires r.PropertyPatch?
  {
    && WritableProperty(r.property) && Has(f, r.property)
    && PrimitiveKind(Get(f, r.property).value) == Some(r.expectedKind) && PrimitiveKind(r.value) == Some(r.expectedKind)
  }

  /** Some coordinate of the element stands for no number. */
  ghost predicate Unplaced(f: Fields, convert: Conversion) {
    (forall n :: !StandsFor(Get(f, "left"), n, convert)) || (forall n :: !StandsFor(Get(f, "top"), n, convert))
  }

  /** Every refusal of the planner, in the order in which it is met; anything else is planned. */
  lemma PlanIsRefusedExactly(m: Model, r: Request, clock: Clock, convert: Conversion)
    ensures !WellFormed(m) ==> PlanZero(m, r, clock, convert) == Err(InvalidState)
    ensures WellFormed(m) && !HasElement(m, r.elementId) ==> PlanZero(m, r, clock, convert) == Err(ElementMismatch)
    ensures WellFormed(m) && HasElement(m, r.elementId) ==>
              var f := m.elements[KeyOf(m, r.elementId)];
              var p := PlanZero(m, r, clock, convert);
              if !Fitting(f, r) then p == Err(TypeMismatch)
              else if r.PropertyPatch? then
                (if !InScope(f, r) then p == Err(FieldOutOfScope)
                 else if Get(f, r.property) == Some(r.value) then p == Err(NoChanges) else p.Ok?)
              else if A.IsPatch(r) then p.Ok?
              else if (forall k: nat :: k < ATTEMPTS ==> Taken(Ids(m), clock, k)) then p == Err(ElementIdUnavailable)
              else if Unplaced(f, convert) then p == Err(GeometryInvalid)
              else if MaxKey(m.elements) + 1 > MAX_SAFE then p == Err(ModelAmbiguous)
              else p.Ok?
  {
    if WellFormed(m) && HasElement(m, r.elementId) {
      var f := m.elements[KeyOf(m, r.elementId)];
      CoordinateStands(f, "left", convert);
      CoordinateStands(f, "top", convert);
      hide WellFormed, Coordinate, StandsFor, Get, WritableProperty, CloneOf, Ids, Type, Taken;
    }
  }

  // ----- What the validator lets through -----

  predicate NumberOrDecimal(v: Option<Json>) {
    v.Some? && (v.value.Num? || (v.value.Str? && T.DecimalText(v.value.s)))
  }

  /** Of one type, and the same in every field but id, place and layer. */
  predicate Alike(f: Fields, g: Fields) { Type(f) == Type(g) && Strip(f) == Strip(g) }

  /** `large` has one element more than `small`: a placed copy of the one element like it, under an id that was free. */
  predicate OneCopyMore(small: Model, large: Model, key: nat, source: nat) {
    && key in large.elements && key !in small.elements && large.elements.Keys == small.elements.Keys + {key}
    && (forall k :: k in small.elements ==> large.elements[k] == small.elements[k])
    && HasId(large.elements[key]) && (forall k :: k in small.elements && HasId(small.elements[k]) ==>
                                        Id(small.elements[k]) != Id(large.elements[key]))
    && NumberOrDecimal(Get(large.elements[key], "left")) && NumberOrDecimal(Get(large.elements[key], "top"))
    && NumberOrDecimal(Get(large.elements[key], "zindex"))
    && source in small.elements && Basic(large.elements[key])
    && (forall k :: k in small.elements ==> (Alike(small.elements[k], large.elements[key]) <==> k == source))
  }

  /** Every accepted addition is one copy at the key after the last, authorized for its source, with only the timestamp rebound. */
  lemma AcceptedAdditionMeans(m: Model, n: Model, key: nat, a: T.Authorization)
    requires T.Accepted(m, n, a) && C.Grown(m, n, key)
    ensures exists source: nat ::
              && OneCopyMore(m, n, key, source) && IsMaxKey(n.elements, key) && key == MaxKey(m.elements) + 1
              && HasId(m.elements[source]) && a.elementId == Id(m.elements[source])
              && (a.operation.ZeroShapeClone? <==> IsType(n.elements[key], "shape"))
              && (a.operation.ZeroElementClone? <==> !IsType(n.elements[key], "shape"))
    ensures "timestamp" in m.metadata && m.metadata == n.metadata["timestamp" := m.metadata["timestamp"]]
  {
    hide AllDigits, IdsUnique, Strip, Type, T.Authorized, Get, T.DecimalText, IsType;
    var t := Rebound(m, n);
    A.ReboundIsWellFormed(m, n);
    C.OnlyAdded(m, t, key, a);
    var source: nat :| source in T.Sources(m.elements, t.elements[key])
                       && a == T.Authorization(T.CloneOperation(t.elements[key]), Id(m.elements[source]));
    CopyFacts(m, t, key, source);
    C.LastOfGrown(m, t, key);
  }

  /** Every accepted removal takes away the last element, one copy of an element that stays. */
  lemma AcceptedRemovalMeans(m: Model, n: Model, key: nat, a: T.Authorization)
    requires T.Accepted(m, n, a) && C.Grown(n, m, key)
    ensures exists source: nat ::
              && OneCopyMore(n, m, key, source) && IsMaxKey(m.elements, key)
              && HasId(n.elements[source]) && a.elementId == Id(n.elements[source])
              && (a.operation.ZeroShapeClone? <==> IsType(m.elements[key], "shape"))
              && (a.operation.ZeroElementClone? <==> !IsType(m.elements[key], "shape"))
    ensures "timestamp" in m.metadata && m.metadata == n.metadata["timestamp" := m.metadata["timestamp"]]
  {
    hide AllDigits, IdsUnique, Strip, Type, T.Authorized, Get, T.DecimalText, IsType;
    var t := Rebound(m, n);
    A.ReboundIsWellFormed(m, n);
    C.OnlyRemoved(m, t, key, a);
    var source: nat :| source in T.Sources(t.elements, m.elements[key])
                       && a == T.Authorization(T.CloneOperation(m.elements[key]), Id(t.elements[source]));
    CopyFacts(t, m, key, source);
  }

  lemma CopyFacts(small: Model, large: Model, key: nat, source: nat)
    requires WellFormed(small) && WellFormed(large) && T.OneMore(small, large, key)
    requires source in T.Sources(small.elements, large.elements[key])
    ensures OneCopyMore(small, large, key, source) && small.metadata == large.metadata
  {
    hide AllDigits, IdsUnique, Strip, Get, T.DecimalText, IsType;
    C.SingletonIs(T.Sources(small.elements, large.elements[key]), source);
    assert key in large.elements.Keys - small.elements.Keys;
    assert large.elements.Keys == small.elements.Keys + {key};
    forall k | k in small.elements ensures Id(small.elements[k]) != Id(large.elements[key]) {
      assert Id(small.elements[k]) in Ids(small);
    }
    forall k | k in small.elements && Alike(small.elements[k], large.elements[key]) ensures k == source
    {
      assert k in T.Sources(small.elements, large.elements[key]);
    }
  }
}
