/** The validator as it computes its verdict, key by key. */
module ZeroValidator {
  import opened Prelude
  import opened Decimal
  import opened ZeroModel
  import T = ZeroTransition
  import A = ZeroAgreement
  import C = ZeroClones

  function Differing(before: Model, after: Model, seen: set<nat>): set<nat>
    requires before.elements.Keys == after.elements.Keys && seen <= before.elements.Keys
  {
    set k | k in seen && before.elements[k] != after.elements[k]
  }

  predicate SameIdAt(before: Model, after: Model, k: nat)
    requires WellFormed(before) && WellFormed(after) && k in before.elements && k in after.elements
  {
    Id(before.elements[k]) == Id(after.elements[k])
  }

  /** Collects the elements that differ; an element whose id moved ends the comparison. */
  method DifferingElements(before: Model, after: Model) returns (changed: Option<set<nat>>)
    requires WellFormed(before) && WellFormed(after) && before.elements.Keys == after.elements.Keys
    ensures changed.Some? <==> T.SameIds(before, after)
    ensures changed.Some? ==> changed.value == T.Changed(before, after)
  {
    hide WellFormed, SameIdAt, T.SameIds, T.Changed, Differing;
    SameIdsEach(before, after);
    var seen: set<nat> := {};
    var found: set<nat> := {};
    NothingDiffers(before, after);
    var todo := before.elements.Keys;
    while todo != {}
      invariant seen + todo == before.elements.Keys && seen !! todo
      invariant forall k :: k in seen ==> SameIdAt(before, after, k)
      invariant found == Differing(before, after, seen)
      decreases |todo|
    {
      var k :| k in todo;
      if !SameIdAt(before, after, k) { return None; }
      DifferingGrows(before, after, seen, k);
      if before.elements[k] != after.elements[k] { found := found + {k}; }
      seen, todo := seen + {k}, todo - {k};
    }
    assert seen == before.elements.Keys;
    return Some(found);
  }

  lemma SameIdsEach(before: Model, after: Model)
    requires WellFormed(before) && WellFormed(after) && before.elements.Keys == after.elements.Keys
    ensures T.SameIds(before, after) <==> forall k :: k in before.elements ==> SameIdAt(before, after, k)
    ensures Differing(before, after, before.elements.Keys) == T.Changed(before, after)
  {
    hide AllDigits, IdsUnique;
  }

  lemma NothingDiffers(before: Model, after: Model)
    requires before.elements.Keys == after.elements.Keys
    ensures Differing(before, after, {}) == {}
  {
  }

  lemma DifferingGrows(before: Model, after: Model, seen: set<nat>, k: nat)
    requires before.elements.Keys == after.elements.Keys && seen + {k} <= before.elements.Keys
    ensures Differing(before, after, seen + {k})
         == Differing(before, after, seen) + (if before.elements[k] != after.elements[k] then {k} else {})
  {
  }

  method PatchVerdict(before: Model, after: Model) returns (r: Option<T.Authorization>)
    requires WellFormed(before) && WellFormed(after) && before.elements.Keys == after.elements.Keys
    ensures r.Some? ==> T.Authorized(before, after, r.value)
    ensures r.None? ==> forall a :: !T.Authorized(before, after, a)
  {
    hide T.Authorized, T.PatchAccepted, T.PatchOperation, AllDigits, IdsUnique;
    forall a | T.Authorized(before, after, a) ensures PatchExists(before, after) {
      var k, key := A.PatchOf(before, after, a);
    }
    var changed := DifferingElements(before, after);
    if changed.None? || before.metadata != after.metadata || |changed.value| != 1 {
      if changed.Some? && before.metadata == after.metadata { OneOnly(before, after); }
      return None;
    }
    var k :| k in changed.value;
    C.SingletonIs(changed.value, k);
    var f, g := before.elements[k], after.elements[k];
    var keys := T.ChangedKeys(f, g);
    if |keys| != 1 {
      OneKeyOnly(before, after, k);
      return None;
    }
    var key :| key in keys;
    KeySingleton(keys, key);
    if !T.PatchAccepted(f, g, key) {
      ThisKeyOnly(before, after, k, key);
      return None;
    }
    assert T.PatchAt(before, after, k, key);
    r := Some(T.Authorization(T.PatchOperation(f, g, key), Id(f)));
    PatchAuthorizes(before, after, k, key);
  }

  ghost predicate PatchExists(before: Model, after: Model)
    requires WellFormed(before) && WellFormed(after)
  {
    exists k: nat, key: string :: T.PatchAt(before, after, k, key)
  }

  lemma PatchAuthorizes(before: Model, after: Model, k: nat, key: string)
    requires WellFormed(before) && WellFormed(after) && T.PatchAt(before, after, k, key)
    ensures k in before.elements && HasId(before.elements[k]) && k in after.elements
    ensures T.Authorized(before, after, T.Authorization(T.PatchOperation(before.elements[k], after.elements[k], key),
                                                        Id(before.elements[k])))
  {
    hide T.PatchAccepted, T.PatchOperation, AllDigits, IdsUnique, T.Added, T.Removed;
    assert k in T.Changed(before, after);
  }

  lemma OneOnly(before: Model, after: Model)
    requires WellFormed(before) && WellFormed(after) && before.elements.Keys == after.elements.Keys
    requires |T.Changed(before, after)| != 1
    ensures !PatchExists(before, after)
  {
    hide T.PatchAccepted, AllDigits, IdsUnique, T.SameIds;
  }

  lemma OneKeyOnly(before: Model, after: Model, k: nat)
    requires WellFormed(before) && WellFormed(after) && before.elements.Keys == after.elements.Keys
    requires T.Changed(before, after) == {k} && k in before.elements
    requires |T.ChangedKeys(before.elements[k], after.elements[k])| != 1
    ensures !PatchExists(before, after)
  {
    hide AllDigits, IdsUnique, T.SameIds, T.GenericPatch, T.LinkPatch, T.ResponsivePatch;
    forall j: nat, key: string ensures !T.PatchAt(before, after, j, key) {
      assert j in {k} || {j} != {k};
    }
  }

  lemma ThisKeyOnly(before: Model, after: Model, k: nat, key: string)
    requires WellFormed(before) && WellFormed(after) && before.elements.Keys == after.elements.Keys
    requires T.Changed(before, after) == {k} && k in before.elements
    requires T.ChangedKeys(before.elements[k], after.elements[k]) == {key}
    requires !T.PatchAccepted(before.elements[k], after.elements[k], key)
    ensures !PatchExists(before, after)
  {
    hide AllDigits, IdsUnique, T.SameIds, T.GenericPatch, T.LinkPatch, T.ResponsivePatch;
    forall j: nat, other: string ensures !T.PatchAt(before, after, j, other) {
      assert j in {k} || {j} != {k};
      assert other in {key} || {other} != {key};
    }
  }

  lemma KeySingleton(s: set<string>, k: string)
    requires |s| == 1 && k in s
    ensures s == {k}
  {
    assert |s - {k}| == 0;
    assert s == (s - {k}) + {k};
  }

  /** The clone rule, for an addition and for a removal alike. */
  method OneMoreVerdict(small: Model, large: Model, key: nat) returns (accepted: bool)
    requires WellFormed(small) && WellFormed(large) && C.Grown(small, large, key)
    ensures accepted <==> T.OneMore(small, large, key)
  {
    hide AllDigits, IdsUnique;
    var clone := large.elements[key];
    accepted := small.metadata == large.metadata
                && (forall k <- small.elements :: small.elements[k] == large.elements[k])
                && Basic(clone) && Id(clone) !in Ids(small)
                && |T.Sources(small.elements, clone)| == 1
                && T.GeometryFinite(clone);
  }

  method MaxNumericKey(elements: map<nat, Fields>) returns (k: nat)
    requires elements != map[]
    ensures k == MaxKey(elements)
  {
    var todo := elements.Keys;
    assert MaxKey(elements) in todo;
    k := 0;
    while todo != {}
      invariant todo <= elements.Keys
      invariant forall j :: j in elements && j !in todo ==> j <= k
      invariant k in elements || (k == 0 && todo == elements.Keys)
      decreases |todo|
    {
      var j :| j in todo;
      if j > k || k !in elements { k := j; }
      todo := todo - {j};
    }
  }

  lemma NotResizable(before: Model, after: Model)
    requires WellFormed(before) && WellFormed(after)
    requires before.elements.Keys != after.elements.Keys
    requires |after.elements.Keys - before.elements.Keys| != 1 || before.elements.Keys - after.elements.Keys != {}
    requires |before.elements.Keys - after.elements.Keys| != 1 || after.elements.Keys - before.elements.Keys != {}
    ensures forall a :: !T.Authorized(before, after, a)
  {
    hide AllDigits, IdsUnique, T.GeometryFinite, Basic, T.Sources, T.CloneOperation, T.PatchOperation, T.PatchAccepted, T.SameIds;
    forall key ensures !T.Added(before, after, key) && !T.Removed(before, after, key) {
      assert before.elements.Keys <= after.elements.Keys ==> before.elements.Keys - after.elements.Keys == {};
      assert after.elements.Keys <= before.elements.Keys ==> after.elements.Keys - before.elements.Keys == {};
    }
  }

  method AdditionVerdict(before: Model, after: Model, key: nat) returns (r: Option<T.Authorization>)
    requires WellFormed(before) && WellFormed(after) && C.Grown(before, after, key)
    ensures r.Some? ==> T.Authorized(before, after, r.value)
    ensures r.None? ==> forall a :: !T.Authorized(before, after, a)
  {
    hide T.Authorized, T.OneMore, AllDigits, IdsUnique, T.CloneOperation, Strip, Basic;
    forall a ensures T.Authorized(before, after, a) ==> T.Added(before, after, key) { C.OnlyAdded(before, after, key, a); }
    var last := MaxNumericKey(before.elements);
    var accepted := OneMoreVerdict(before, after, key);
    if key != last + 1 || !accepted { return None; }
    OneSource(before, after, key);
    var source :| source in T.Sources(before.elements, after.elements[key]);
    r := Some(T.Authorization(T.CloneOperation(after.elements[key]), Id(before.elements[source])));
    C.OnlyAdded(before, after, key, r.value);
  }

  method RemovalVerdict(before: Model, after: Model, key: nat) returns (r: Option<T.Authorization>)
    requires WellFormed(before) && WellFormed(after) && C.Grown(after, before, key)
    ensures r.Some? ==> T.Authorized(before, after, r.value)
    ensures r.None? ==> forall a :: !T.Authorized(before, after, a)
  {
    hide T.Authorized, T.OneMore, AllDigits, IdsUnique, T.CloneOperation, Strip, Basic;
    forall a ensures T.Authorized(before, after, a) ==> T.Removed(before, after, key) { C.OnlyRemoved(before, after, key, a); }
    assert key in before.elements;
    var last := MaxNumericKey(before.elements);
    var accepted := OneMoreVerdict(after, before, key);
    if key != last || !accepted { return None; }
    OneSource(after, before, key);
    var source :| source in T.Sources(after.elements, before.elements[key]);
    r := Some(T.Authorization(T.CloneOperation(before.elements[key]), Id(after.elements[source])));
    C.OnlyRemoved(before, after, key, r.value);
  }

  lemma OneSource(small: Model, large: Model, key: nat)
    requires WellFormed(small) && WellFormed(large) && T.OneMore(small, large, key)
    ensures key in large.elements
    ensures exists source :: source in T.Sources(small.elements, large.elements[key])
  {
    hide Strip, Basic, AllDigits, IdsUnique;
    assert key in large.elements.Keys - small.elements.Keys;
    assert |T.Sources(small.elements, large.elements[key])| == 1;
    assert T.Sources(small.elements, large.elements[key]) != {};
  }

  /** The verdict: an authorization exactly when the write is one supported transition. */
  method AssertSupportedZeroTransition(current: Model, intended: Model) returns (r: Option<T.Authorization>)
    ensures r.Some? ==> T.Accepted(current, intended, r.value)
    ensures r.None? ==> forall a :: !T.Accepted(current, intended, a)
  {
    hide T.Authorized, AllDigits, IdsUnique;
    if !WellFormed(current) || !WellFormed(intended) { return None; }
    A.ReboundIsWellFormed(current, intended);
    var after := Rebound(current, intended);
    if current.elements.Keys == after.elements.Keys {
      r := PatchVerdict(current, after);
      return;
    }
    var added := after.elements.Keys - current.elements.Keys;
    var removed := current.elements.Keys - after.elements.Keys;
    if |added| == 1 && removed == {} {
      var key :| key in added;
      C.SingletonIs(added, key);
      r := AdditionVerdict(current, after, key);
    } else if |removed| == 1 && added == {} {
      var key :| key in removed;
      C.SingletonIs(removed, key);
      r := RemovalVerdict(current, after, key);
    } else {
      NotResizable(current, after);
      r := None;
    }
  }
}
