/** Zero Block models as ordered JSON, and what makes one well formed. */
module ZeroModel {
  import opened Prelude
  import opened Decimal

  datatype Json = Null | Bool(b: bool) | Num(n: int) | Str(s: string) | Arr(items: seq<Json>) | Obj(entries: seq<(string, Json)>)

  /** An element's own fields, in order; setting a new field appends it. */
  type Fields = seq<(string, Json)>

  function Get(f: Fields, key: string): Option<Json> {
    if f == [] then None else if f[0].0 == key then Some(f[0].1) else Get(f[1..], key)
  }

  predicate Has(f: Fields, key: string) { Get(f, key).Some? }

  function Set(f: Fields, key: string, value: Json): Fields {
    if f == [] then [(key, value)]
    else if f[0].0 == key then [(key, value)] + f[1..]
    else [f[0]] + Set(f[1..], key, value)
  }

  function Keys(f: Fields): set<string> { set k | 0 <= k < |f| :: f[k].0 }

  const CLONE_FIELDS := {"elem_id", "left", "top", "zindex"}

  /** The fields that a clone must share with its source. */
  function Strip(f: Fields): Fields {
    if f == [] then []
    else (if f[0].0 in CLONE_FIELDS then [] else [f[0]]) + Strip(f[1..])
  }

  // ----- Elements -----

  function Type(f: Fields): Option<Json> {
    var declared := Get(f, "type");
    if declared.None? || declared.value.Null? then Get(f, "elem_type") else declared
  }

  predicate IsType(f: Fields, name: string) { Type(f) == Some(Str(name)) }

  const BASIC_TYPES := {"text", "image", "shape", "button", "html"}

  predicate Basic(f: Fields) {
    Type(f).Some? && Type(f).value.Str? && Type(f).value.s in BASIC_TYPES
  }

  predicate HasId(f: Fields) {
    Get(f, "elem_id").Some? && Get(f, "elem_id").value.Str? && Canonical(Get(f, "elem_id").value.s)
  }

  function Id(f: Fields): string
    requires HasId(f)
  {
    Get(f, "elem_id").value.s
  }

  datatype Kind = KString | KNumber | KBool | KNull

  function PrimitiveKind(v: Json): Option<Kind> {
    match v
    case Null => Some(KNull)
    case Str(_) => Some(KString)
    case Bool(_) => Some(KBool)
    case Num(_) => Some(KNumber)
    case Arr(_) => None
    case Obj(_) => None
  }

  /** An identifier-like name that is not part of the element's identity. */
  predicate WritableProperty(name: string) {
    && 1 <= |name| <= 128
    && ('a' <= name[0] <= 'z' || 'A' <= name[0] <= 'Z')
    && (forall k :: 0 <= k < |name| ==>
          'a' <= name[k] <= 'z' || 'A' <= name[k] <= 'Z' || IsDigit(name[k]) || name[k] in {'_', ':', '-'})
    && name !in {"elem_id", "type", "elem_type"}
  }

  // ----- Models -----

  /** Element keys are canonical decimals; everything else at the top level is metadata. */
  datatype Model = Model(elements: map<nat, Fields>, metadata: map<string, Json>)

  const MAX_SAFE := 9007199254740991
  const REQUIRED := {"groups", "meta", "timestamp"}

  predicate IdsUnique(elements: map<nat, Fields>)
    requires forall k :: k in elements ==> HasId(elements[k])
  {
    forall j, k :: j in elements && k in elements && Id(elements[j]) == Id(elements[k]) ==> j == k
  }

  predicate WellFormed(m: Model) {
    && (forall key :: key in m.metadata ==> !(key != "" && AllDigits(key)))
    && (forall k :: k in m.elements ==> k <= MAX_SAFE)
    && REQUIRED <= m.metadata.Keys
    && m.elements != map[]
    && (forall k :: k in m.elements ==> HasId(m.elements[k]))
    && IdsUnique(m.elements)
  }

  function Ids(m: Model): set<string>
    requires WellFormed(m)
  {
    set k | k in m.elements :: Id(m.elements[k])
  }

  predicate IsMaxKey(elements: map<nat, Fields>, k: nat) {
    k in elements && forall j :: j in elements ==> j <= k
  }

  ghost function MaxOf(s: set<nat>): (k: nat)
    requires s != {}
    ensures k in s && forall j :: j in s ==> j <= k
  {
    var x :| x in s;
    if s == {x} then x
    else
      var rest := MaxOf(s - {x});
      assert s == (s - {x}) + {x};
      if x > rest then x else rest
  }

  ghost function MaxKey(elements: map<nat, Fields>): (k: nat)
    requires elements != map[]
    ensures IsMaxKey(elements, k)
  {
    assert elements.Keys != {};
    MaxOf(elements.Keys)
  }

  /** The service refreshes the timestamp by itself, so it is rebound to the freshly read one. */
  function Rebound(current: Model, intended: Model): Model
    requires "timestamp" in current.metadata
  {
    intended.(metadata := intended.metadata["timestamp" := current.metadata["timestamp"]])
  }

  // ----- Fields -----

  lemma {:induction false} SetGet(f: Fields, key: string, value: Json, other: string)
    ensures Get(Set(f, key, value), other) == if other == key then Some(value) else Get(f, other)
  {
    if f != [] && f[0].0 != key {
      SetGet(f[1..], key, value, other);
      assert Set(f, key, value)[1..] == Set(f[1..], key, value);
    } else if f != [] {
      assert Set(f, key, value)[1..] == f[1..];
    } else {
      assert Set(f, key, value)[1..] == [];
    }
  }

  lemma {:induction false} SetStrip(f: Fields, key: string, value: Json)
    requires key in CLONE_FIELDS
    ensures Strip(Set(f, key, value)) == Strip(f)
  {
    if f == [] {
      assert Set(f, key, value)[1..] == [];
    } else if f[0].0 == key {
      assert Set(f, key, value)[1..] == f[1..];
    } else {
      SetStrip(f[1..], key, value);
      assert Set(f, key, value)[1..] == Set(f[1..], key, value);
    }
  }

  lemma {:induction false} GetMeansKey(f: Fields, key: string)
    ensures Has(f, key) <==> key in Keys(f)
  {
    if f != [] {
      GetMeansKey(f[1..], key);
      if key in Keys(f) && f[0].0 != key {
        var k :| 0 <= k < |f| && f[k].0 == key;
        assert f[1..][k - 1].0 == key;
      } else if key in Keys(f[1..]) {
        var k :| 0 <= k < |f[1..]| && f[1..][k].0 == key;
        assert f[k + 1].0 == key;
      } else if f[0].0 == key {
        assert f[0].0 in Keys(f);
      }
    }
  }
}
