/** The transition validator, written apart from the planner: what a write to a Zero model may change. */
module ZeroTransition {
  import opened Prelude
  import opened Decimal
  import opened ZeroModel

  datatype Operation = ZeroLeafPatch | ZeroResponsivePatch | ZeroPropertyPatch | ZeroShapeClone | ZeroElementClone

  datatype Authorization = Authorization(operation: Operation, elementId: string)

  // ----- Patches -----

  function ChangedKeys(f: Fields, g: Fields): set<string> {
    set key | key in Keys(f) + Keys(g) && Get(f, key) != Get(g, key)
  }

  predicate GenericPatch(f: Fields, g: Fields, key: string) {
    && WritableProperty(key)
    && Basic(f) && Type(g) == Type(f)
    && Has(f, key) && Has(g, key)
    && PrimitiveKind(Get(f, key).value).Some?
    && PrimitiveKind(Get(f, key).value) == PrimitiveKind(Get(g, key).value)
  }

  predicate IsString(v: Option<Json>) { v.Some? && v.value.Str? }

  predicate LinkPatch(f: Fields, g: Fields, key: string) {
    && key == "link" && IsType(f, "text")
    && (IsString(Get(g, key)) || (IsString(Get(f, key)) && !Has(g, key)))
  }

  predicate ResponsivePatch(f: Fields, g: Fields, key: string) {
    key == "left-res-480" && IsType(f, "shape") && Has(g, key) && Get(g, key).value.Num?
  }

  function PatchOperation(f: Fields, g: Fields, key: string): Operation {
    if LinkPatch(f, g, key) then ZeroLeafPatch
    else if ResponsivePatch(f, g, key) then ZeroResponsivePatch
    else ZeroPropertyPatch
  }

  predicate PatchAccepted(f: Fields, g: Fields, key: string) {
    && ChangedKeys(f, g) == {key}
    && (GenericPatch(f, g, key) || LinkPatch(f, g, key) || ResponsivePatch(f, g, key))
  }

  predicate SameIds(before: Model, after: Model)
    requires WellFormed(before) && WellFormed(after) && before.elements.Keys == after.elements.Keys
  {
    forall k :: k in before.elements ==> Id(before.elements[k]) == Id(after.elements[k])
  }

  function Changed(before: Model, after: Model): set<nat>
    requires before.elements.Keys == after.elements.Keys
  {
    set k | k in before.elements && before.elements[k] != after.elements[k]
  }

  // ----- Clones -----

  /** The elements that could be the source of this clone. */
  function Sources(elements: map<nat, Fields>, clone: Fields): set<nat> {
    set k | k in elements && Basic(elements[k]) && Type(elements[k]) == Type(clone) && Strip(elements[k]) == Strip(clone)
  }

  predicate DigitsFrom(s: string, from: nat) {
    from < |s| && forall k :: from <= k < |s| ==> IsDigit(s[k])
  }

  /** An optional minus sign, an integer without leading zeros, and an optional fraction. */
  predicate DecimalText(s: string) {
    var start := if s != [] && s[0] == '-' then 1 else 0;
    exists dot :: start < dot <= |s| && IntegerUpTo(s, start, dot)
  }

  predicate IntegerUpTo(s: string, start: nat, dot: nat)
    requires start < dot <= |s|
  {
    && (forall k :: start <= k < dot ==> IsDigit(s[k]))
    && (s[start] == '0' ==> dot == start + 1)
    && (dot == |s| || (s[dot] == '.' && DigitsFrom(s, dot + 1)))
  }

  predicate FiniteCoordinate(f: Fields, key: string) {
    Has(f, key) && (Get(f, key).value.Num? || (Get(f, key).value.Str? && DecimalText(Get(f, key).value.s)))
  }

  predicate GeometryFinite(f: Fields) {
    FiniteCoordinate(f, "left") && FiniteCoordinate(f, "top") && FiniteCoordinate(f, "zindex")
  }

  function CloneOperation(f: Fields): Operation {
    if IsType(f, "shape") then ZeroShapeClone else ZeroElementClone
  }

  /** `larger` is `smaller` with one cloned element at the key after the last. */
  ghost predicate OneMore(smaller: Model, larger: Model, key: nat)
    requires WellFormed(smaller) && WellFormed(larger)
  {
    && larger.elements.Keys - smaller.elements.Keys == {key} && smaller.elements.Keys <= larger.elements.Keys
    && smaller.metadata == larger.metadata
    && (forall k :: k in smaller.elements ==> smaller.elements[k] == larger.elements[k])
    && Basic(larger.elements[key]) && Id(larger.elements[key]) !in Ids(smaller)
    && |Sources(smaller.elements, larger.elements[key])| == 1
    && GeometryFinite(larger.elements[key])
  }

  ghost predicate Added(before: Model, after: Model, key: nat)
    requires WellFormed(before) && WellFormed(after)
  {
    OneMore(before, after, key) && key == MaxKey(before.elements) + 1
  }

  ghost predicate Removed(before: Model, after: Model, key: nat)
    requires WellFormed(before) && WellFormed(after)
  {
    OneMore(after, before, key) && key == MaxKey(before.elements)
  }

  // ----- The verdict -----

  ghost predicate PatchAt(before: Model, after: Model, k: nat, key: string)
    requires WellFormed(before) && WellFormed(after)
  {
    && before.elements.Keys == after.elements.Keys && before.metadata == after.metadata
    && SameIds(before, after)
    && Changed(before, after) == {k}
    && PatchAccepted(before.elements[k], after.elements[k], key)
  }

  /** Whether a write is one supported transition, and as which operation on which element. */
  ghost predicate Authorized(before: Model, after: Model, a: Authorization)
    requires WellFormed(before) && WellFormed(after)
  {
    || (exists k: nat, key: string ::
          PatchAt(before, after, k, key)
          && a == Authorization(PatchOperation(before.elements[k], after.elements[k], key), Id(before.elements[k])))
    || (exists key: nat, source: nat ::
          Added(before, after, key) && source in Sources(before.elements, after.elements[key])
          && a == Authorization(CloneOperation(after.elements[key]), Id(before.elements[source])))
    || (exists key: nat, source: nat ::
          Removed(before, after, key) && source in Sources(after.elements, before.elements[key])
          && a == Authorization(CloneOperation(before.elements[key]), Id(after.elements[source])))
  }

  /** What the validator accepts: both models well formed, and the transition authorized after rebinding the timestamp. */
  ghost predicate Accepted(current: Model, intended: Model, a: Authorization) {
    WellFormed(current) && WellFormed(intended) && Authorized(current, Rebound(current, intended), a)
  }
}
