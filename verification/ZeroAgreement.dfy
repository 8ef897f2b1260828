/** The planner and the validator agree: on what is accepted, under which authority, and on what can be undone. */
module ZeroAgreement {
  import opened Prelude
  import opened Decimal
  import opened ZeroModel
  import opened ZeroPlan
  import T = ZeroTransition

  // ----- One changed field -----

  lemma ChangedKeyWitness(f: Fields, g: Fields, key: string)
    ensures key in T.ChangedKeys(f, g) <==> Get(f, key) != Get(g, key)
  {
    GetMeansKey(f, key);
    GetMeansKey(g, key);
  }

  lemma ChangedKeysSwap(f: Fields, g: Fields)
    ensures T.ChangedKeys(f, g) == T.ChangedKeys(g, f)
  {
  }

  lemma SetChangesOne(f: Fields, key: string, value: Json)
    requires Get(f, key) != Some(value)
    ensures T.ChangedKeys(f, Set(f, key, value)) == {key}
  {
    var g := Set(f, key, value);
    forall other ensures other in T.ChangedKeys(f, g) <==> other == key {
      ChangedKeyWitness(f, g, other);
      SetGet(f, key, value, other);
    }
  }

  lemma SetKeepsIdentity(f: Fields, key: string, value: Json)
    requires key !in {"elem_id", "type", "elem_type"}
    ensures Type(Set(f, key, value)) == Type(f)
    ensures HasId(f) ==> HasId(Set(f, key, value)) && Id(Set(f, key, value)) == Id(f)
  {
    SetGet(f, key, value, "elem_id");
    SetGet(f, key, value, "type");
    SetGet(f, key, value, "elem_type");
  }

  /** A patch keeps the model well formed and changes one field of one element. */
  lemma PatchedShape(m: Model, elementId: string, key: string, value: Json)
    requires WellFormed(m) && HasElement(m, elementId) && key !in {"elem_id", "type", "elem_type"}
    requires Get(m.elements[KeyOf(m, elementId)], key) != Some(value)
    ensures var n := Patched(m, elementId, key, value);
            var k := KeyOf(m, elementId);
            && WellFormed(n) && n.elements.Keys == m.elements.Keys && n.metadata == m.metadata
            && T.SameIds(m, n) && T.Changed(m, n) == {k}
            && T.ChangedKeys(m.elements[k], n.elements[k]) == {key}
            && n.elements[k] == Set(m.elements[k], key, value)
            && Type(n.elements[k]) == Type(m.elements[k])
  {
    var n := Patched(m, elementId, key, value);
    var k := KeyOf(m, elementId);
    SetKeepsIdentity(m.elements[k], key, value);
    SetChangesOne(m.elements[k], key, value);
    SetGet(m.elements[k], key, value, key);
    assert n.elements[k] != m.elements[k];
    assert n.elements.Keys == m.elements.Keys;
    assert forall j :: j in n.elements ==> HasId(n.elements[j]) && Id(n.elements[j]) == Id(m.elements[j]);
  }

  lemma NoRebinding(m: Model, n: Model)
    requires WellFormed(m) && m.metadata == n.metadata
    ensures Rebound(m, n) == n
  {
    assert n.metadata["timestamp" := m.metadata["timestamp"]] == n.metadata;
  }

  // ----- Patches -----

  function PatchKey(r: Request): string
    requires !r.ShapeClone? && !r.ElementClone?
  {
    match r
    case PropertyPatch(_, _, property, _, _) => property
    case LeafPatch(_, _) => LINK
    case ResponsivePatch(_, _) => LEFT_480
  }

  function PatchValue(r: Request): Json
    requires !r.ShapeClone? && !r.ElementClone?
  {
    match r
    case PropertyPatch(_, _, _, _, value) => value
    case LeafPatch(_, link) => Str(link)
    case ResponsivePatch(_, left480) => Num(left480)
  }

  predicate IsPatch(r: Request) { !r.ShapeClone? && !r.ElementClone? }

  lemma PlannedPatch(m: Model, r: Request, clock: Clock, convert: Conversion)
    requires IsPatch(r) && PlanZero(m, r, clock, convert).Ok?
    ensures WellFormed(m) && HasElement(m, r.elementId)
    ensures PlanZero(m, r, clock, convert).value == Patched(m, r.elementId, PatchKey(r), PatchValue(r))
    ensures PatchKey(r) !in {"elem_id", "type", "elem_type"}
    ensures Patchable(m.elements[KeyOf(m, r.elementId)], r)
    ensures PlanZero(m, r, clock, convert).value != m ==>
              Get(m.elements[KeyOf(m, r.elementId)], PatchKey(r)) != Some(PatchValue(r))
  {
    var k := KeyOf(m, r.elementId);
    if Get(m.elements[k], PatchKey(r)) == Some(PatchValue(r)) {
      SetSame(m.elements[k], PatchKey(r), PatchValue(r));
      assert m.elements[k := m.elements[k]] == m.elements;
    }
  }

  lemma {:induction false} SetSame(f: Fields, key: string, value: Json)
    requires Get(f, key) == Some(value)
    ensures Set(f, key, value) == f
  {
    if f[0].0 != key {
      SetSame(f[1..], key, value);
    }
  }

  function RequestedOperation(r: Request): T.Operation {
    match r
    case PropertyPatch(_, _, _, _, _) => T.ZeroPropertyPatch
    case LeafPatch(_, _) => T.ZeroLeafPatch
    case ResponsivePatch(_, _) => T.ZeroResponsivePatch
    case ShapeClone(_, _, _) => T.ZeroShapeClone
    case ElementClone(_, _, _, _) => T.ZeroElementClone
  }

  /** The validator sees only the change, so it takes a property patch of these two fields for the older patch. */
  predicate Reclassified(r: Request) {
    r.PropertyPatch? && ((r.property == LINK && r.expectedType == "text" && r.expectedKind.KString?)
                         || (r.property == LEFT_480 && r.expectedType == "shape" && r.expectedKind.KNumber?))
  }

  /** What the planner checks of the element before it patches it. */
  predicate Patchable(f: Fields, r: Request) {
    if r.PropertyPatch? then
      && Basic(f) && IsType(f, r.expectedType) && WritableProperty(r.property) && Has(f, r.property)
      && PrimitiveKind(Get(f, r.property).value) == Some(r.expectedKind) && PrimitiveKind(r.value) == Some(r.expectedKind)
    else if r.LeafPatch? then IsType(f, "text")
    else r.ResponsivePatch? && IsType(f, "shape")
  }

  lemma PatchIsAccepted(f: Fields, r: Request)
    requires IsPatch(r)
    requires Patchable(f, r)
    requires Get(f, PatchKey(r)) != Some(PatchValue(r)) && PatchKey(r) !in {"elem_id", "type", "elem_type"}
    ensures var g := Set(f, PatchKey(r), PatchValue(r));
            && T.PatchAccepted(f, g, PatchKey(r))
            && (T.PatchOperation(f, g, PatchKey(r)) == RequestedOperation(r) <==> !Reclassified(r))
  {
    var g := Set(f, PatchKey(r), PatchValue(r));
    SetChangesOne(f, PatchKey(r), PatchValue(r));
    SetKeepsIdentity(f, PatchKey(r), PatchValue(r));
    SetGet(f, PatchKey(r), PatchValue(r), PatchKey(r));
    hide Set, Get, WritableProperty, Type, Patchable, Reclassified, T.GenericPatch, T.LinkPatch, T.ResponsivePatch, T.ChangedKeys,
    T.PatchOperation, RequestedOperation;
    PatchJudged(f, g, r);
  }

  lemma PatchJudged(f: Fields, g: Fields, r: Request)
    requires IsPatch(r) && Patchable(f, r) && Type(g) == Type(f) && Get(g, PatchKey(r)) == Some(PatchValue(r))
    ensures T.GenericPatch(f, g, PatchKey(r)) || T.LinkPatch(f, g, PatchKey(r)) || T.ResponsivePatch(f, g, PatchKey(r))
    ensures T.PatchOperation(f, g, PatchKey(r)) == RequestedOperation(r) <==> !Reclassified(r)
  {
    hide Set, Get, WritableProperty, Type;
  }

  /** The write passes for this element as this operation, and as nothing else. */
  ghost predicate AcceptedOnlyAs(m: Model, n: Model, elementId: string, op: T.Operation) {
    forall a :: T.Accepted(m, n, a) <==> a == T.Authorization(op, elementId)
  }

  /**
   Every planned patch that changes the model is accepted, for its element and under one operation only:
   the one that was asked for, unless the two older patches cover the same change.
   */
  lemma PlannedPatchIsAccepted(m: Model, r: Request, clock: Clock, convert: Conversion)
    requires IsPatch(r) && PlanZero(m, r, clock, convert).Ok? && PlanZero(m, r, clock, convert).value != m
    ensures var n := PlanZero(m, r, clock, convert).value;
            exists op :: AcceptedOnlyAs(m, n, r.elementId, op) && (op == RequestedOperation(r) <==> !Reclassified(r))
  {
    hide WellFormed, PlanZero, Reclassified, T.PatchAt, T.Authorized, T.PatchOperation, HasElement;
    var n := PlanZero(m, r, clock, convert).value;
    var k, op := PlannedPatchAt(m, r, clock, convert);
    NoRebinding(m, n);
    forall a ensures T.Accepted(m, n, a) <==> a == T.Authorization(op, r.elementId) {
      OnePatch(m, n, k, PatchKey(r), a);
    }
    assert AcceptedOnlyAs(m, n, r.elementId, op);
  }

  lemma PlannedPatchAt(m: Model, r: Request, clock: Clock, convert: Conversion) returns (k: nat, op: T.Operation)
    requires IsPatch(r) && PlanZero(m, r, clock, convert).Ok? && PlanZero(m, r, clock, convert).value != m
    ensures var n := PlanZero(m, r, clock, convert).value;
            && WellFormed(m) && WellFormed(n) && n.metadata == m.metadata
            && k in m.elements && k in n.elements && Id(m.elements[k]) == r.elementId
            && T.PatchAt(m, n, k, PatchKey(r))
            && op == T.PatchOperation(m.elements[k], n.elements[k], PatchKey(r))
            && (op == RequestedOperation(r) <==> !Reclassified(r))
  {
    hide WritableProperty, T.LinkPatch, T.ResponsivePatch, T.GenericPatch, T.PatchAccepted, Type, T.PatchOperation;
    PlannedPatch(m, r, clock, convert);
    var n := PlanZero(m, r, clock, convert).value;
    k := KeyOf(m, r.elementId);
    PatchedShape(m, r.elementId, PatchKey(r), PatchValue(r));
    PatchIsAccepted(m.elements[k], r);
    op := T.PatchOperation(m.elements[k], n.elements[k], PatchKey(r));
  }

  /** A patch is authorized once: for the changed element, as the operation of the changed field. */
  lemma OnePatch(m: Model, n: Model, k: nat, key: string, a: T.Authorization)
    requires WellFormed(m) && WellFormed(n) && T.PatchAt(m, n, k, key) && k in m.elements
    ensures T.Authorized(m, n, a)
       <==> a == T.Authorization(T.PatchOperation(m.elements[k], n.elements[k], key), Id(m.elements[k]))
  {
    hide T.PatchOperation, T.PatchAccepted, T.Added, T.Removed, WellFormed;
    if T.Authorized(m, n, a) {
      var j, other := PatchOf(m, n, a);
      SamePatch(m, n, k, key, j, other);
    }
  }

  lemma SamePatch(m: Model, n: Model, k: nat, key: string, j: nat, other: string)
    requires WellFormed(m) && WellFormed(n) && T.PatchAt(m, n, k, key) && T.PatchAt(m, n, j, other)
    ensures j == k && other == key
  {
    hide T.LinkPatch, T.ResponsivePatch, T.GenericPatch, WellFormed, T.SameIds, T.Changed, T.ChangedKeys;
    assert j in {k};
    assert other in {key};
  }

  /** An accepted write that keeps the element keys changes one field of one element and nothing else but the timestamp. */
  lemma AcceptedPatchChangesOneField(m: Model, n: Model, a: T.Authorization)
    requires T.Accepted(m, n, a) && m.elements.Keys == n.elements.Keys
    ensures exists k, key ::
              && k in m.elements && Id(m.elements[k]) == a.elementId
              && Get(m.elements[k], key) != Get(n.elements[k], key)
              && (forall other :: other != key ==> Get(m.elements[k], other) == Get(n.elements[k], other))
              && (forall j :: j in m.elements && j != k ==> m.elements[j] == n.elements[j])
    ensures T.SameIds(m, n) && m.metadata == n.metadata["timestamp" := m.metadata["timestamp"]]
  {
    hide T.Authorized, T.PatchAt, IdsUnique, AllDigits;
    var t := Rebound(m, n);
    var k, key := PatchOf(m, t, a);
    OneField(m, t, k, key);
    assert k in m.elements && Id(m.elements[k]) == a.elementId;
  }

  /** Among transitions that keep the element keys only patches are authorized. */
  lemma PatchOf(m: Model, t: Model, a: T.Authorization) returns (k: nat, key: string)
    requires WellFormed(m) && WellFormed(t) && m.elements.Keys == t.elements.Keys && T.Authorized(m, t, a)
    ensures T.PatchAt(m, t, k, key) && k in m.elements
    ensures a == T.Authorization(T.PatchOperation(m.elements[k], t.elements[k], key), Id(m.elements[k]))
  {
    hide T.LinkPatch, T.ResponsivePatch, T.GenericPatch, T.PatchAccepted, T.Added, T.Removed, T.SameIds,
    T.PatchOperation, T.CloneOperation, T.Sources, IdsUnique, AllDigits;
    NotResized(m, t);
    k, key :| T.PatchAt(m, t, k, key) && a == T.Authorization(T.PatchOperation(m.elements[k], t.elements[k], key), Id(m.elements[k]));
    assert k in T.Changed(m, t);
  }

  lemma OneField(m: Model, t: Model, k: nat, key: string)
    requires WellFormed(m) && WellFormed(t) && T.PatchAt(m, t, k, key)
    ensures k in m.elements && HasId(m.elements[k]) && T.SameIds(m, t) && m.metadata == t.metadata
    ensures Get(m.elements[k], key) != Get(t.elements[k], key)
    ensures forall other :: other != key ==> Get(m.elements[k], other) == Get(t.elements[k], other)
    ensures forall j :: j in m.elements && j != k ==> m.elements[j] == t.elements[j]
  {
    hide T.LinkPatch, T.ResponsivePatch, T.GenericPatch, IdsUnique, AllDigits, T.SameIds;
    assert k in T.Changed(m, t);
    forall other ensures (other == key) == (Get(m.elements[k], other) != Get(t.elements[k], other)) {
      ChangedKeyWitness(m.elements[k], t.elements[k], other);
    }
    forall j | j in m.elements && j != k ensures m.elements[j] == t.elements[j] {
      assert j !in T.Changed(m, t);
    }
  }

  lemma NotResized(m: Model, t: Model)
    requires WellFormed(m) && WellFormed(t) && m.elements.Keys == t.elements.Keys
    ensures forall key :: !T.Added(m, t, key) && !T.Removed(m, t, key)
  {
    assert m.elements.Keys - t.elements.Keys == {};
    hide WellFormed, T.Sources, T.GeometryFinite;
  }

  // ----- Undoing a patch -----

  /** A later read of the same model, which may carry a new timestamp. */
  predicate SameButTimestamp(m: Model, later: Model) {
    later.elements == m.elements && later.metadata - {"timestamp"} == m.metadata - {"timestamp"} && "timestamp" in later.metadata
  }

  lemma RereadIsWellFormed(m: Model, later: Model)
    requires WellFormed(m) && SameButTimestamp(m, later)
    ensures WellFormed(later)
  {
    forall key | key in later.metadata ensures !(key != "" && AllDigits(key)) {
      if key != "timestamp" { assert key in later.metadata - {"timestamp"}; }
    }
    forall key | key in REQUIRED ensures key in later.metadata {
      if key != "timestamp" { assert key in m.metadata - {"timestamp"}; }
    }
  }

  lemma RebindsTo(n: Model, later: Model, m: Model)
    requires WellFormed(n) && SameButTimestamp(n, later) && n.metadata == m.metadata
    ensures Rebound(later, m).elements == m.elements && Rebound(later, m).metadata == later.metadata
  {
    var t := m.metadata["timestamp" := later.metadata["timestamp"]];
    forall key ensures (key in t <==> key in later.metadata) && (key in t ==> t[key] == later.metadata[key]) {
      if key != "timestamp" {
        assert key in m.metadata - {"timestamp"} <==> key in later.metadata - {"timestamp"};
        if key in later.metadata {
          assert (m.metadata - {"timestamp"})[key] == (later.metadata - {"timestamp"})[key];
        }
      }
    }
    assert t == later.metadata;
  }

  /** Which patches the validator lets be undone: what it decides from the prior value alone. */
  predicate Restorable(f: Fields, r: Request) {
    if r.PropertyPatch? then true
    else if r.LeafPatch? then !Has(f, LINK) || Get(f, LINK).value.Str?
    else Has(f, LEFT_480) && Get(f, LEFT_480).value.Num?
  }

  lemma RestoreOfFields(f: Fields, r: Request)
    requires IsPatch(r) && Patchable(f, r) && PatchKey(r) !in {"elem_id", "type", "elem_type"}
    requires Get(f, PatchKey(r)) != Some(PatchValue(r))
    ensures var g := Set(f, PatchKey(r), PatchValue(r));
            && T.ChangedKeys(g, f) == {PatchKey(r)}
            && (T.PatchAccepted(g, f, PatchKey(r)) <==> Restorable(f, r))
            && (Restorable(f, r) ==> T.PatchOperation(g, f, PatchKey(r)) == T.PatchOperation(f, g, PatchKey(r)))
  {
    var g := Set(f, PatchKey(r), PatchValue(r));
    SetChangesOne(f, PatchKey(r), PatchValue(r));
    ChangedKeysSwap(f, g);
    SetKeepsIdentity(f, PatchKey(r), PatchValue(r));
    SetGet(f, PatchKey(r), PatchValue(r), PatchKey(r));
    hide Set, Get, WritableProperty, Type, Patchable, Restorable, T.GenericPatch, T.LinkPatch, T.ResponsivePatch, T.ChangedKeys,
    T.PatchOperation;
    RestoreJudged(f, g, r);
  }

  lemma RestoreJudged(f: Fields, g: Fields, r: Request)
    requires IsPatch(r) && Patchable(f, r) && Type(g) == Type(f)
    requires Get(g, PatchKey(r)) == Some(PatchValue(r))
    ensures T.GenericPatch(g, f, PatchKey(r)) || T.LinkPatch(g, f, PatchKey(r)) || T.ResponsivePatch(g, f, PatchKey(r))
            <==> Restorable(f, r)
    ensures Restorable(f, r) ==> T.PatchOperation(g, f, PatchKey(r)) == T.PatchOperation(f, g, PatchKey(r))
  {
    hide Set, Get, WritableProperty, Type;
  }

  /**
   The restore of a planned patch is accepted exactly when its prior value allows it: always for a
   property, for a link that was a string or absent, and for a breakpoint that was a number.
   */
  lemma RestoreAcceptedExactly(m: Model, r: Request, clock: Clock, convert: Conversion, later: Model)
    requires IsPatch(r) && PlanZero(m, r, clock, convert).Ok? && PlanZero(m, r, clock, convert).value != m
    requires SameButTimestamp(PlanZero(m, r, clock, convert).value, later)
    ensures HasElement(m, r.elementId)
    ensures (exists a :: T.Accepted(later, m, a)) <==> Restorable(m.elements[KeyOf(m, r.elementId)], r)
    ensures forall a :: T.Accepted(later, m, a) ==> a.elementId == r.elementId
  {
    hide WritableProperty, T.LinkPatch, T.ResponsivePatch, T.GenericPatch, T.PatchAccepted, T.PatchOperation, Type, Restorable,
    WellFormed, T.Authorized, T.PatchAt, PlanZero, Patched, Patchable;
    PlannedPatch(m, r, clock, convert);
    var n := PlanZero(m, r, clock, convert).value;
    var k := KeyOf(m, r.elementId);
    PatchedShape(m, r.elementId, PatchKey(r), PatchValue(r));
    RestoreOfFields(m.elements[k], r);
    RereadIsWellFormed(n, later);
    RebindsTo(n, later, m);
    var t := Rebound(later, m);
    ReboundIsWellFormed(later, m);
    RestoreVerdict(m, n, later, t, k, PatchKey(r));
    if T.PatchAccepted(n.elements[k], m.elements[k], PatchKey(r)) {
      var a := T.Authorization(T.PatchOperation(n.elements[k], m.elements[k], PatchKey(r)), Id(m.elements[k]));
      assert T.Accepted(later, m, a);
    }
    forall a | T.Accepted(later, m, a)
      ensures a.elementId == r.elementId && T.PatchAccepted(n.elements[k], m.elements[k], PatchKey(r))
    {
      assert T.Authorized(later, t, a);
    }
  }

  lemma ReboundIsWellFormed(later: Model, m: Model)
    requires WellFormed(later) && WellFormed(m)
    ensures WellFormed(Rebound(later, m))
  {
  }

  lemma RestoreVerdict(m: Model, n: Model, later: Model, t: Model, k: nat, key: string)
    requires WellFormed(m) && WellFormed(n) && WellFormed(later) && WellFormed(t)
    requires n.elements.Keys == m.elements.Keys && T.SameIds(m, n) && T.Changed(m, n) == {k} && k in m.elements
    requires T.ChangedKeys(n.elements[k], m.elements[k]) == {key}
    requires later.elements == n.elements && t.elements == m.elements && t.metadata == later.metadata
    ensures T.PatchAccepted(n.elements[k], m.elements[k], key) ==>
              T.Authorized(later, t, T.Authorization(T.PatchOperation(n.elements[k], m.elements[k], key), Id(m.elements[k])))
    ensures forall a :: T.Authorized(later, t, a) ==>
                          a.elementId == Id(m.elements[k]) && T.PatchAccepted(n.elements[k], m.elements[k], key)
  {
    hide T.LinkPatch, T.ResponsivePatch, T.GenericPatch, T.PatchOperation, IdsUnique, AllDigits, T.Added, T.Removed;
    assert T.Changed(later, t) == T.Changed(m, n);
    assert T.SameIds(later, t);
    if T.PatchAccepted(n.elements[k], m.elements[k], key) {
      assert T.PatchAt(later, t, k, key);
    }
    forall a | T.Authorized(later, t, a)
      ensures a.elementId == Id(m.elements[k]) && T.PatchAccepted(n.elements[k], m.elements[k], key)
    {
      var k', key' := PatchOf(later, t, a);
      assert k' in {k} && key' in {key};
    }
  }
}
