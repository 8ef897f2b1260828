/** Clones: when the validator accepts the planner's clone, and when an accepted change of the element set can be undone. */
module ZeroClones {
  import opened Prelude
  import opened Decimal
  import opened ZeroModel
  import opened ZeroPlan
  import T = ZeroTransition
  import A = ZeroAgreement

  // ----- The clone itself -----

  lemma ShownIntegerIsDecimal(n: int)
    ensures T.DecimalText(ShowInt(n))
  {
    var s := ShowInt(n);
    var start := if s != [] && s[0] == '-' then 1 else 0;
    if n < 0 {
      ShowCanonical(-n);
    } else if n > 0 {
      ShowCanonical(n);
      assert s[0] != '-';
    }
    assert T.IntegerUpTo(s, start, |s|);
  }

  lemma SetFacts(f: Fields, key: string, value: Json)
    requires key in CLONE_FIELDS
    ensures Get(Set(f, key, value), key) == Some(value)
    ensures Strip(Set(f, key, value)) == Strip(f) && Type(Set(f, key, value)) == Type(f)
  {
    SetStrip(f, key, value);
    SetGet(f, key, value, key);
    SetGet(f, key, value, "type");
    SetGet(f, key, value, "elem_type");
  }

  lemma MovedIsFinite(f: Fields, key: string, next: int, g: Fields)
    requires Get(g, key) == Some(Moved(f, key, next))
    ensures T.FiniteCoordinate(g, key)
  {
    hide T.DecimalText, Get;
    ShownIntegerIsDecimal(next);
  }

  /** A clone keeps everything but its id, its place and its layer, and lies above every element: on the top layer plus one. */
  lemma CloneFacts(m: Model, source: Fields, newId: string, left: int, top: int, convert: Conversion)
    requires Canonical(newId)
    ensures var clone := CloneOf(m, source, newId, left, top, convert);
            && HasId(clone) && Id(clone) == newId
            && Strip(clone) == Strip(source) && Type(clone) == Type(source)
            && T.GeometryFinite(clone)
            && Get(clone, "zindex") == Some(Num(TopLayer(m, convert) + 1))
  {
    var left' := Moved(source, "left", left);
    var top' := Moved(source, "top", top);
    var named := Set(source, "elem_id", Str(newId));
    var placed := Set(named, "left", left');
    var stacked := Set(placed, "top", top');
    var z := Num(TopLayer(m, convert) + 1);
    var clone := Set(stacked, "zindex", z);
    SetFacts(source, "elem_id", Str(newId));
    SetFacts(named, "left", left');
    SetFacts(placed, "top", top');
    SetFacts(stacked, "zindex", z);
    SetGet(named, "left", left', "elem_id");
    SetGet(placed, "top", top', "elem_id");
    SetGet(stacked, "zindex", z, "elem_id");
    SetGet(placed, "top", top', "left");
    SetGet(stacked, "zindex", z, "left");
    SetGet(stacked, "zindex", z, "top");
    hide Set, Strip, Type, Moved, T.DecimalText;
    MovedIsFinite(source, "left", left, clone);
    MovedIsFinite(source, "top", top, clone);
  }

  // ----- The planner's clone -----

  predicate IsClone(r: Request) { r.ShapeClone? || r.ElementClone? }

  function ExpectedType(r: Request): string
    requires IsClone(r)
  {
    if r.ShapeClone? then "shape" else r.expectedType
  }

  /** No other element has the same type and the same fields outside identity, place and layer. */
  predicate NoTwin(m: Model, k: nat)
    requires k in m.elements
  {
    forall j :: j in m.elements && j != k ==>
                  !(Type(m.elements[j]) == Type(m.elements[k]) && Strip(m.elements[j]) == Strip(m.elements[k]))
  }

  lemma TwinSources(m: Model, k: nat, clone: Fields)
    requires k in m.elements && Basic(m.elements[k])
    requires Type(clone) == Type(m.elements[k]) && Strip(clone) == Strip(m.elements[k])
    ensures k in T.Sources(m.elements, clone)
    ensures |T.Sources(m.elements, clone)| == 1 <==> NoTwin(m, k)
    ensures NoTwin(m, k) ==> T.Sources(m.elements, clone) == {k}
  {
    hide Type, Strip;
    var sources := T.Sources(m.elements, clone);
    assert forall j :: j in m.elements && Type(m.elements[j]) == Type(m.elements[k]) ==> Basic(m.elements[j]);
    if NoTwin(m, k) {
      assert sources == {k};
    } else {
      var j :| j in m.elements && j != k && Type(m.elements[j]) == Type(m.elements[k]) && Strip(m.elements[j]) == Strip(m.elements[k]);
      assert {j, k} <= sources;
      TwoInside(sources, j, k);
    }
  }

  lemma SingletonIs(s: set<nat>, k: nat)
    requires |s| == 1 && k in s
    ensures s == {k}
  {
    assert |s - {k}| == 0;
    assert s == (s - {k}) + {k};
  }

  lemma TwoInside(s: set<nat>, j: nat, k: nat)
    requires j in s && k in s && j != k
    ensures |s| >= 2
  {
    assert s == (s - {j}) + {j};
    assert k in s - {j};
  }

  lemma PlannedClone(m: Model, r: Request, clock: Clock, convert: Conversion) returns (clone: Fields)
    requires IsClone(r) && PlanZero(m, r, clock, convert).Ok?
    ensures WellFormed(m) && HasElement(m, r.elementId)
    ensures CloneSound(m, KeyOf(m, r.elementId), ExpectedType(r), clone)
    ensures MaxKey(m.elements) + 1 <= MAX_SAFE
    ensures PlanZero(m, r, clock, convert).value == m.(elements := m.elements[MaxKey(m.elements) + 1 := clone])
  {
    hide WellFormed, PlanClone, CloneSound, HasElement;
    assert WellFormed(m) && HasElement(m, r.elementId);
    clone := CloneFound(m, r.elementId, ExpectedType(r), r.offsetLeft, r.offsetTop, clock, convert);
  }

  predicate CloneSound(m: Model, k: nat, expectedType: string, clone: Fields)
    requires WellFormed(m) && k in m.elements
  {
    && Basic(m.elements[k]) && IsType(m.elements[k], expectedType)
    && HasId(clone) && Id(clone) !in Ids(m)
    && Strip(clone) == Strip(m.elements[k]) && Type(clone) == Type(m.elements[k]) && T.GeometryFinite(clone)
  }

  lemma CloneFound(m: Model, elementId: string, expectedType: string, dx: int, dy: int, clock: Clock, convert: Conversion)
    returns (clone: Fields)
    requires WellFormed(m) && HasElement(m, elementId)
    requires PlanClone(m, elementId, expectedType, dx, dy, clock, convert).Ok?
    ensures CloneSound(m, KeyOf(m, elementId), expectedType, clone)
    ensures MaxKey(m.elements) + 1 <= MAX_SAFE
    ensures PlanClone(m, elementId, expectedType, dx, dy, clock, convert).value
         == m.(elements := m.elements[MaxKey(m.elements) + 1 := clone])
  {
    hide AllDigits, IdsUnique, Strip, Type, T.GeometryFinite, CloneOf, Basic, Coordinate, HasId, IsType;
    var source := m.elements[KeyOf(m, elementId)];
    var newId := NextElementId(Ids(m), clock, 0).value;
    var left := Coordinate(source, "left", convert).value + dx;
    var top := Coordinate(source, "top", convert).value + dy;
    clone := CloneOf(m, source, newId, left, top, convert);
    CloneFacts(m, source, newId, left, top, convert);
  }

  lemma AppendedIsWellFormed(m: Model, key: nat, clone: Fields)
    requires WellFormed(m) && key == MaxKey(m.elements) + 1 <= MAX_SAFE && HasId(clone) && Id(clone) !in Ids(m)
    ensures WellFormed(m.(elements := m.elements[key := clone]))
  {
    hide AllDigits;
    var n := m.elements[key := clone];
    assert key !in m.elements;
    forall j, k | j in n && k in n && Id(n[j]) == Id(n[k]) ensures j == k {
      if j != key { assert Id(m.elements[j]) in Ids(m); }
      if k != key { assert Id(m.elements[k]) in Ids(m); }
    }
    assert n != map[] by { assert key in n; }
  }

  lemma AppendedIsAdded(m: Model, key: nat, clone: Fields)
    requires WellFormed(m) && key == MaxKey(m.elements) + 1 && HasId(clone) && Id(clone) !in Ids(m)
    requires WellFormed(m.(elements := m.elements[key := clone]))
    requires Basic(clone) && T.GeometryFinite(clone)
    ensures T.Added(m, m.(elements := m.elements[key := clone]), key) <==> |T.Sources(m.elements, clone)| == 1
  {
    hide AllDigits, IdsUnique, T.GeometryFinite, Basic, T.Sources;
    var n := m.(elements := m.elements[key := clone]);
    assert key !in m.elements;
    assert n.elements.Keys - m.elements.Keys == {key};
  }

  /** Only an addition can explain a larger set of elements. */
  lemma OnlyAdded(m: Model, n: Model, key: nat, a: T.Authorization)
    requires WellFormed(m) && WellFormed(n) && n.elements.Keys - m.elements.Keys == {key}
    ensures T.Authorized(m, n, a) <==>
              T.Added(m, n, key)
              && exists source: nat :: source in T.Sources(m.elements, n.elements[key])
                                        && a == T.Authorization(T.CloneOperation(n.elements[key]), Id(m.elements[source]))
  {
    hide AllDigits, IdsUnique, T.GeometryFinite, Basic, Strip, T.CloneOperation, T.PatchOperation, T.PatchAccepted, T.SameIds;
    assert key in n.elements && key !in m.elements;
    forall other | T.Added(m, n, other) ensures other == key {
      assert other in n.elements.Keys - m.elements.Keys;
    }
    if T.Added(m, n, key) {
      forall source: nat | source in T.Sources(m.elements, n.elements[key])
        && a == T.Authorization(T.CloneOperation(n.elements[key]), Id(m.elements[source]))
        ensures T.Authorized(m, n, a)
      {
      }
    }
  }

  /** The planner's clone is accepted exactly when its source has no twin, and then as a clone of that source. */
  lemma CloneAcceptedExactly(m: Model, r: Request, clock: Clock, convert: Conversion)
    requires IsClone(r) && PlanZero(m, r, clock, convert).Ok?
    ensures WellFormed(m) && HasElement(m, r.elementId)
    ensures var n := PlanZero(m, r, clock, convert).value;
            var operation := if ExpectedType(r) == "shape" then T.ZeroShapeClone else T.ZeroElementClone;
            forall a :: T.Accepted(m, n, a) <==>
                          NoTwin(m, KeyOf(m, r.elementId)) && a == T.Authorization(operation, r.elementId)
  {
    hide AllDigits, IdsUnique, Strip, T.GeometryFinite, PlanZero, NoTwin, T.Authorized, T.Added, T.Sources;
    var n := PlanZero(m, r, clock, convert).value;
    var clone := PlannedClone(m, r, clock, convert);
    var k := KeyOf(m, r.elementId);
    var key := MaxKey(m.elements) + 1;
    AppendedIsWellFormed(m, key, clone);
    AppendedIsAdded(m, key, clone);
    TwinSources(m, k, clone);
    A.NoRebinding(m, n);
    assert key !in m.elements;
    assert n.elements.Keys - m.elements.Keys == {key};
    var operation := if ExpectedType(r) == "shape" then T.ZeroShapeClone else T.ZeroElementClone;
    assert T.CloneOperation(clone) == operation;
    forall a ensures T.Accepted(m, n, a) <==> NoTwin(m, k) && a == T.Authorization(operation, r.elementId) {
      OnlyAdded(m, n, key, a);
      if NoTwin(m, k) {
        assert k in T.Sources(m.elements, n.elements[key]);
        assert forall source :: source in T.Sources(m.elements, n.elements[key]) ==> source == k;
      }
    }
  }

  // ----- Undoing an addition or a removal -----

  predicate Grown(small: Model, large: Model, key: nat) {
    large.elements.Keys - small.elements.Keys == {key} && small.elements.Keys <= large.elements.Keys
  }

  lemma OnlyRemoved(m: Model, n: Model, key: nat, a: T.Authorization)
    requires WellFormed(m) && WellFormed(n) && Grown(n, m, key)
    ensures T.Authorized(m, n, a) <==>
              T.Removed(m, n, key)
              && exists source: nat :: source in T.Sources(n.elements, m.elements[key])
                                        && a == T.Authorization(T.CloneOperation(m.elements[key]), Id(n.elements[source]))
  {
    hide AllDigits, IdsUnique, T.GeometryFinite, Basic, Strip, T.CloneOperation, T.PatchOperation, T.PatchAccepted, T.SameIds;
    assert key in m.elements && key !in n.elements;
    forall other | T.Removed(m, n, other) ensures other == key {
      assert other in m.elements.Keys - n.elements.Keys;
    }
    forall other ensures !T.Added(m, n, other) {
      assert n.elements.Keys - m.elements.Keys == {};
    }
  }

  /** The larger and the smaller model of a clone see the same sources, whatever the timestamps. */
  lemma OneMoreReads(small: Model, large: Model, small': Model, large': Model, key: nat)
    requires WellFormed(small) && WellFormed(large) && WellFormed(small') && WellFormed(large')
    requires small.elements == small'.elements && large.elements == large'.elements && small'.metadata == large'.metadata
    requires T.OneMore(small, large, key)
    ensures T.OneMore(small', large', key)
  {
    hide AllDigits, IdsUnique, T.GeometryFinite, Basic, T.Sources;
    assert Ids(small) == Ids(small');
  }

  lemma LastOfGrown(small: Model, large: Model, key: nat)
    requires WellFormed(small) && WellFormed(large) && Grown(small, large, key)
    ensures key == MaxKey(small.elements) + 1 ==> key == MaxKey(large.elements)
  {
    hide AllDigits, IdsUnique;
    if key == MaxKey(small.elements) + 1 {
      var last := MaxKey(large.elements);
      assert key in large.elements;
      if last != key {
        assert last in small.elements || last in large.elements.Keys - small.elements.Keys;
      }
    }
  }

  /** What rereading after an accepted write and writing the old model back amounts to. */
  lemma WriteBack(m: Model, n: Model, later: Model)
    requires WellFormed(m) && WellFormed(n)
    requires SameMetadata(m, n) && A.SameButTimestamp(Rebound(m, n), later)
    ensures WellFormed(later) && WellFormed(Rebound(later, m)) && WellFormed(Rebound(m, n))
    ensures later.elements == n.elements && Rebound(later, m).elements == m.elements
    ensures Rebound(later, m).metadata == later.metadata
  {
    A.ReboundIsWellFormed(m, n);
    A.RereadIsWellFormed(Rebound(m, n), later);
    A.RebindsTo(Rebound(m, n), later, m);
    A.ReboundIsWellFormed(later, m);
  }

  predicate SameMetadata(m: Model, n: Model)
    requires "timestamp" in m.metadata
  {
    Rebound(m, n).metadata == m.metadata
  }

  /** Every accepted addition is undone by an accepted removal, under the same operation and for the same element. */
  lemma AdditionIsUndone(m: Model, n: Model, key: nat, a: T.Authorization, later: Model)
    requires T.Accepted(m, n, a) && Grown(m, n, key) && A.SameButTimestamp(Rebound(m, n), later)
    ensures T.Accepted(later, m, a)
  {
    hide AllDigits, IdsUnique, T.OneMore, T.CloneOperation, Basic, Strip, T.Authorized;
    var t := Rebound(m, n);
    A.ReboundIsWellFormed(m, n);
    OnlyAdded(m, t, key, a);
    var source: nat :| source in T.Sources(m.elements, t.elements[key])
                       && a == T.Authorization(T.CloneOperation(t.elements[key]), Id(m.elements[source]));
    AddedMetadata(m, t, key);
    WriteBack(m, n, later);
    var back := Rebound(later, m);
    OneMoreReads(m, t, back, later, key);
    LastOfGrown(m, t, key);
    LastReads(t, later);
    OnlyRemoved(later, back, key, a);
  }

  lemma LastReads(t: Model, later: Model)
    requires WellFormed(t) && WellFormed(later) && t.elements == later.elements
    ensures MaxKey(t.elements) == MaxKey(later.elements)
  {
  }

  lemma AddedMetadata(m: Model, t: Model, key: nat)
    requires WellFormed(m) && WellFormed(t) && T.OneMore(m, t, key)
    ensures m.metadata == t.metadata
  {
    hide T.Sources;
  }

  /** An accepted removal can be undone exactly when no key was skipped between the removed element and the rest. */
  lemma RemovalUndoneExactly(m: Model, n: Model, key: nat, a: T.Authorization, later: Model)
    requires T.Accepted(m, n, a) && Grown(n, m, key) && A.SameButTimestamp(Rebound(m, n), later)
    ensures n.elements != map[]
    ensures (exists b :: T.Accepted(later, m, b)) <==> key == MaxKey(n.elements) + 1
    ensures key == MaxKey(n.elements) + 1 ==> T.Accepted(later, m, a)
  {
    hide AllDigits, IdsUnique, T.OneMore, T.CloneOperation, Basic, Strip, T.Authorized;
    var t := Rebound(m, n);
    A.ReboundIsWellFormed(m, n);
    OnlyRemoved(m, t, key, a);
    var source: nat :| source in T.Sources(t.elements, m.elements[key])
                       && a == T.Authorization(T.CloneOperation(m.elements[key]), Id(t.elements[source]));
    AddedMetadata(t, m, key);
    WriteBack(m, n, later);
    var back := Rebound(later, m);
    OneMoreReads(t, m, later, back, key);
    LastReads(t, later);
    OnlyAdded(later, back, key, a);
    forall b | T.Accepted(later, m, b) ensures key == MaxKey(n.elements) + 1 {
      OnlyAdded(later, back, key, b);
    }
    if key == MaxKey(n.elements) + 1 {
      assert T.Authorized(later, back, a);
      assert T.Accepted(later, m, a);
    }
  }
}
