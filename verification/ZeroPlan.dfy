/** The Zero planner: one property patch, or one clone of an element at the next key. */
module ZeroPlan {
  import opened Prelude
  import opened Decimal
  import opened ZeroModel

  datatype Request =
    | PropertyPatch(elementId: string, expectedType: string, property: string, expectedKind: Kind, value: Json)
    | LeafPatch(elementId: string, link: string)
    | ResponsivePatch(elementId: string, left480: int)
    | ShapeClone(elementId: string, offsetLeft: int, offsetTop: int)
    | ElementClone(elementId: string, expectedType: string, offsetLeft: int, offsetTop: int)

  const LINK := "link"
  const LEFT_480 := "left-res-480"

  datatype Error =
    | InvalidState | ElementMismatch | TypeMismatch | FieldOutOfScope | NoChanges
    | ElementIdUnavailable | GeometryInvalid | ModelAmbiguous

  /** How the host converts a value that is not a number; unparsable values give nothing. */
  type Conversion = Json -> Option<int>

  predicate HasElement(m: Model, elementId: string)
    requires WellFormed(m)
  {
    exists k <- m.elements :: Id(m.elements[k]) == elementId
  }

  /** The key of the element; ids are unique, so there is at most one. */
  function KeyOf(m: Model, elementId: string): (k: nat)
    requires WellFormed(m) && HasElement(m, elementId)
    ensures k in m.elements && Id(m.elements[k]) == elementId
  {
    var k :| k in m.elements && Id(m.elements[k]) == elementId;
    k
  }

  // ----- Clones -----

  const ATTEMPTS := 100

  /** What the clock shows at each attempt; nothing is known of one reading from another. */
  type Clock = readings: seq<nat> | |readings| == ATTEMPTS && forall k :: 0 <= k < ATTEMPTS ==> readings[k] > 0
    witness seq(ATTEMPTS, i => 1)

  predicate Taken(ids: set<string>, clock: Clock, k: nat)
    requires k < ATTEMPTS
  {
    Show(clock[k] + k) in ids
  }

  /** The first of a hundred clock readings, each with its attempt added, that is not an id yet. */
  function NextElementId(ids: set<string>, clock: Clock, offset: nat): (id: Option<string>)
    requires offset <= ATTEMPTS
    ensures id.Some? ==> id.value !in ids && Canonical(id.value)
    ensures id.None? <==> forall k :: offset <= k < ATTEMPTS ==> Taken(ids, clock, k)
    decreases ATTEMPTS - offset
  {
    if offset == ATTEMPTS then None
    else if !Taken(ids, clock, offset) then ShowCanonical(clock[offset] + offset); Some(Show(clock[offset] + offset))
    else NextElementId(ids, clock, offset + 1)
  }

  function Coordinate(f: Fields, key: string, convert: Conversion): Option<int> {
    var v := Get(f, key);
    if v.None? || v.value.Null? then Some(0)
    else if v.value.Num? then Some(v.value.n)
    else convert(v.value)
  }

  function ShowInt(n: int): string {
    if n < 0 then "-" + Show(-n) else Show(n)
  }

  /** A coordinate that was text stays text. */
  function Moved(f: Fields, key: string, next: int): Json {
    if Get(f, key).Some? && Get(f, key).value.Str? then Str(ShowInt(next)) else Num(next)
  }

  function Layer(m: Model, k: nat, convert: Conversion): Option<int>
    requires k in m.elements
  {
    Coordinate(m.elements[k], "zindex", convert)
  }

  /** The highest layer in use, not below the ground. */
  ghost function TopLayer(m: Model, convert: Conversion): (z: int)
    ensures z >= 0 && (z == 0 || exists k :: k in m.elements && Layer(m, k, convert) == Some(z))
    ensures forall k :: k in m.elements && Layer(m, k, convert).Some? ==> Layer(m, k, convert).value <= z
  {
    var layers := set k | k in m.elements && Layer(m, k, convert).Some? && Layer(m, k, convert).value >= 0
                     :: Layer(m, k, convert).value as nat;
    if layers == {} then
      assert forall k :: k in m.elements && Layer(m, k, convert).Some? && Layer(m, k, convert).value >= 0 ==>
                           Layer(m, k, convert).value as nat in layers;
      0
    else
      assert forall k :: k in m.elements && Layer(m, k, convert).Some? && Layer(m, k, convert).value >= 0 ==>
                           Layer(m, k, convert).value as nat in layers;
      MaxOf(layers)
  }

  ghost function CloneOf(m: Model, source: Fields, newId: string, left: int, top: int, convert: Conversion): Fields {
    var named := Set(source, "elem_id", Str(newId));
    var placed := Set(Set(named, "left", Moved(source, "left", left)), "top", Moved(source, "top", top));
    Set(placed, "zindex", Num(TopLayer(m, convert) + 1))
  }

  ghost function PlanClone(m: Model, elementId: string, expectedType: string, dx: int, dy: int,
                           clock: Clock, convert: Conversion): Result<Model, Error>
    requires WellFormed(m) && HasElement(m, elementId)
  {
    var source := m.elements[KeyOf(m, elementId)];
    if !Basic(source) || !IsType(source, expectedType) then Err(TypeMismatch)
    else
      var newId := NextElementId(Ids(m), clock, 0);
      var left := Coordinate(source, "left", convert);
      var top := Coordinate(source, "top", convert);
      if newId.None? then Err(ElementIdUnavailable)
      else if left.None? || top.None? then Err(GeometryInvalid)
      else if MaxKey(m.elements) + 1 > MAX_SAFE then Err(ModelAmbiguous)
      else
        var clone := CloneOf(m, source, newId.value, left.value + dx, top.value + dy, convert);
        Ok(m.(elements := m.elements[MaxKey(m.elements) + 1 := clone]))
  }

  // ----- The planner -----

  function Patched(m: Model, elementId: string, key: string, value: Json): Model
    requires WellFormed(m) && HasElement(m, elementId)
  {
    var k := KeyOf(m, elementId);
    m.(elements := m.elements[k := Set(m.elements[k], key, value)])
  }

  ghost function PlanZero(m: Model, request: Request, clock: Clock, convert: Conversion): Result<Model, Error>
  {
    if !WellFormed(m) then Err(InvalidState)
    else if !HasElement(m, request.elementId) then Err(ElementMismatch)
    else
      var element := m.elements[KeyOf(m, request.elementId)];
      match request
      case PropertyPatch(id, expectedType, property, kind, value) =>
        if !Basic(element) || !IsType(element, expectedType) then Err(TypeMismatch)
        else if !WritableProperty(property) || !Has(element, property) then Err(FieldOutOfScope)
        else if PrimitiveKind(Get(element, property).value) != Some(kind) || PrimitiveKind(value) != Some(kind)
        then Err(FieldOutOfScope)
        else if Get(element, property).value == value then Err(NoChanges)
        else Ok(Patched(m, id, property, value))
      case LeafPatch(id, link) =>
        if !IsType(element, "text") then Err(TypeMismatch) else Ok(Patched(m, id, LINK, Str(link)))
      case ResponsivePatch(id, left480) =>
        if !IsType(element, "shape") then Err(TypeMismatch) else Ok(Patched(m, id, LEFT_480, Num(left480)))
      case ShapeClone(id, dx, dy) => PlanClone(m, id, "shape", dx, dy, clock, convert)
      case ElementClone(id, expectedType, dx, dy) => PlanClone(m, id, expectedType, dx, dy, clock, convert)
  }
}
