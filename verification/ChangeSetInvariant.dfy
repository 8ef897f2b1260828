/**
 The effect of one durable or remote step, when such a step is safe, and the
 invariant that every safe step keeps.
 */
module ChangeSetInvariant {
  import opened Prelude
  import opened ChangeSetStore
  import opened ChangeSetCalls

  function Do(w: World, e: Effect): World {
    var d := w.disk;
    match e
    case WriteMapping(key, mapping) => w.(disk := d.(mappings := d.mappings[key := mapping]))
    case WriteClaim(id, action, key) => w.(disk := d.(claims := d.claims[ClaimName(id, action) := key]))
    case Dispatch(id, write) => w.(dispatched := w.dispatched + [(id, write)])
    case Append(r) =>
      var id := r.ident.id;
      if id in d.histories then w.(disk := d.(histories := d.histories[id := d.histories[id] + [r]])) else w
    case PutMaterial(id, material) => w.(vault := w.vault[id := material])
    case DropMaterial(id) => w.(vault := w.vault - {id})
    case WriteSnapshot(id, snapshot) => w.(disk := d.(snapshots := d.snapshots[id := snapshot]))
    case WriteFirst(r) => w.(disk := d.(histories := d.histories[r.ident.id := [r]]))
    case RemoveChangeSet(id) => w.(disk := d.(histories := d.histories - {id}, littered := d.littered - {id}))
    case DiscardSnapshot(id) => w.(disk := d.(snapshots := d.snapshots - {id}))
  }

  function DoAll(w: World, es: seq<Effect>): World
    decreases |es|
  {
    if es == [] then w else Do(DoAll(w, es[..|es| - 1]), es[|es| - 1])
  }

  /** How many writes of one kind have been sent for one ChangeSet. */
  function Count(log: seq<(nat, RemoteWrite)>, id: nat, write: RemoteWrite): nat {
    if log == [] then 0
    else Count(log[..|log| - 1], id, write) + (if log[|log| - 1] == (id, write) then 1 else 0)
  }

  function ActionOf(write: RemoteWrite): Action {
    if write.RollbackRestore? then Rollback else Apply
  }

  // ----- Invariant -----

  predicate RecordFine(r: Record, id: nat) {
    && RecordAccepted(r)
    && r.ident.id == id
    && r.ident.snapshotId == id
    && r.ident.before != r.ident.after
    && (r.state.Planned? ==> r.appliedHash.None?)
    && (r.state.Applied? || r.state.Verified? ==> r.appliedHash == Some(r.ident.after))
  }

  /** A gap-free path of the transition table with constant identity and a write-once applied hash. */
  ghost predicate HistoryFine(h: seq<Record>, id: nat) {
    && |h| <= MAX_EVENTS
    && (h != [] ==> h[0].state.Planned?)
    && (forall k :: 0 <= k < |h| ==> RecordFine(h[k], id))
    && (forall k :: 0 < k < |h| ==> TransitionAccepted(h[k - 1], h[k]))
  }

  ghost predicate HistoriesFine(d: Disk) {
    forall id :: id in d.histories ==> HistoryFine(d.histories[id], id)
  }

  predicate BackedBy(r: Record, id: nat, claims: map<ClaimName, nat>) {
    && (r.state.Applied? || r.state.Verified? ==> ClaimName(id, Apply) in claims)
    && (r.state.RolledBack? ==> ClaimName(id, Rollback) in claims)
  }

  /** No outcome without its durable claim. */
  ghost predicate ClaimsBack(d: Disk) {
    forall id, k ::
      id in d.histories && 0 <= k < |d.histories[id]| ==> BackedBy(d.histories[id][k], id, d.claims)
  }

  /** A key claims at most one action, and only on a ChangeSet that exists. */
  ghost predicate ClaimsNamed(d: Disk) {
    forall name :: name in d.claims ==>
                     && d.claims[name] in d.mappings
                     && d.mappings[d.claims[name]] == ActionMapping(name.action, name.id)
                     && name.id in d.histories
  }

  predicate HasPlanKey(d: Disk, id: nat, key: nat) {
    id in d.histories && d.histories[id] != [] && d.histories[id][0].ident.planKey == Some(key)
  }

  /** A plan mapping names a ChangeSet that carries its key. */
  ghost predicate PlansNamed(d: Disk) {
    forall key :: key in d.mappings && d.mappings[key].PlanMapping? ==> HasPlanKey(d, d.mappings[key].id, key)
  }

  /** While a key is unbound, at most one ChangeSet carries it. */
  ghost predicate PlanKeysUnique(d: Disk) {
    forall a, b, key :: HasPlanKey(d, a, key) && HasPlanKey(d, b, key) && key !in d.mappings ==> a == b
  }

  ghost predicate SnapshotsBind(d: Disk) {
    forall id :: id in d.histories && d.histories[id] != [] ==> SnapshotBound(d, d.histories[id][0].ident)
  }

  predicate WriteBudget(w: World, id: nat, write: RemoteWrite) {
    Count(w.dispatched, id, write) <= if ClaimName(id, ActionOf(write)) in w.disk.claims then 1 else 0
  }

  /** A write of each kind is sent at most once for a ChangeSet, and never before its claim. */
  ghost predicate Budget(w: World) {
    forall id, write :: WriteBudget(w, id, write)
  }

  predicate MaterialMatches(m: Material, ident: Identity) {
    m == Material(ident.request, ident.before, ident.revision)
  }

  /** The private material of a ChangeSet is the one it was planned with. */
  ghost predicate VaultBinds(d: Disk, vault: Vault) {
    forall id :: id in vault && id in d.histories && d.histories[id] != [] ==>
                   MaterialMatches(vault[id], d.histories[id][0].ident)
  }

  ghost predicate DiskInv(d: Disk) {
    && HistoriesFine(d)
    && ClaimsBack(d)
    && ClaimsNamed(d)
    && PlansNamed(d)
    && PlanKeysUnique(d)
    && SnapshotsBind(d)
  }

  ghost predicate WorldInv(w: World) {
    DiskInv(w.disk) && Budget(w) && VaultBinds(w.disk, w.vault)
  }

  // ----- Safe steps -----

  ghost predicate EffectSafe(w: World, e: Effect) {
    var d := w.disk;
    match e
    case WriteMapping(key, mapping) =>
      key !in d.mappings
      && (mapping.PlanMapping? ==> HasPlanKey(d, mapping.id, key) && RemovalSafe(d, mapping.id))
    case WriteClaim(id, action, key) =>
      && ClaimName(id, action) !in d.claims
      && key in d.mappings && d.mappings[key] == ActionMapping(action, id)
      && id in d.histories
    case Dispatch(id, write) =>
      ClaimName(id, ActionOf(write)) in d.claims && Count(w.dispatched, id, write) == 0
    case Append(r) =>
      AppendAccepted(d, r) && RecordFine(r, r.ident.id) && BackedBy(r, r.ident.id, d.claims)
    case PutMaterial(id, material) => id !in d.histories
    case DropMaterial(id) => true
    case WriteSnapshot(id, snapshot) => id !in d.histories
    case WriteFirst(r) => FirstSafe(w, r)
    case RemoveChangeSet(id) => RemovalSafe(d, id)
    case DiscardSnapshot(id) => id !in d.histories
  }

  ghost predicate FirstSafe(w: World, r: Record) {
    && r.ident.id !in w.disk.histories
    && RecordFine(r, r.ident.id)
    && r.state.Planned?
    && SnapshotBound(w.disk, r.ident)
    && (r.ident.id in w.vault ==> MaterialMatches(w.vault[r.ident.id], r.ident))
    && (r.ident.planKey.Some? && r.ident.planKey.value !in w.disk.mappings ==>
          forall a :: a in w.disk.histories ==> !HasPlanKey(w.disk, a, r.ident.planKey.value))
  }

  ghost predicate RemovalSafe(d: Disk, id: nat) {
    && (forall action :: ClaimName(id, action) !in d.claims)
    && (forall key :: key in d.mappings && d.mappings[key].PlanMapping? ==> d.mappings[key].id != id)
  }

  /** Every step of the list is safe at the moment it is taken. */
  ghost predicate Safe(w: World, es: seq<Effect>) {
    forall k :: 0 <= k < |es| ==> EffectSafe(DoAll(w, es[..k]), es[k])
  }

  // ----- Lists of steps -----

  lemma DoSnoc(w: World, es: seq<Effect>, e: Effect)
    ensures DoAll(w, es + [e]) == Do(DoAll(w, es), e)
  {
    assert (es + [e])[..|es|] == es;
  }

  lemma {:induction false} DoCat(w: World, a: seq<Effect>, b: seq<Effect>)
    ensures DoAll(w, a + b) == DoAll(DoAll(w, a), b)
    decreases |b|
  {
    if b == [] {
      assert a + b == a;
    } else {
      var front := b[..|b| - 1];
      DoCat(w, a, front);
      assert a + b == (a + front) + [b[|b| - 1]];
      DoSnoc(w, a + front, b[|b| - 1]);
    }
  }

  lemma SafeCat(w: World, a: seq<Effect>, b: seq<Effect>)
    requires Safe(w, a) && Safe(DoAll(w, a), b)
    ensures Safe(w, a + b)
  {
    hide EffectSafe, Do;
    forall k | 0 <= k < |a + b|
      ensures EffectSafe(DoAll(w, (a + b)[..k]), (a + b)[k])
    {
      if k < |a| {
        assert (a + b)[..k] == a[..k];
      } else {
        assert (a + b)[..k] == a + b[..k - |a|];
        DoCat(w, a, b[..k - |a|]);
        assert EffectSafe(DoAll(DoAll(w, a), b[..k - |a|]), b[k - |a|]);
      }
    }
  }

  lemma SafeOne(w: World, e: Effect)
    requires EffectSafe(w, e)
    ensures Safe(w, [e]) && DoAll(w, [e]) == Do(w, e)
  {
    hide EffectSafe, Do;
    assert [e][..0] == [];
  }

  lemma SafeCons(w: World, e: Effect, rest: seq<Effect>)
    requires EffectSafe(w, e) && Safe(Do(w, e), rest)
    ensures Safe(w, [e] + rest)
    ensures DoAll(w, [e] + rest) == DoAll(Do(w, e), rest)
  {
    hide EffectSafe, Do, Safe;
    SafeOne(w, e);
    SafeCat(w, [e], rest);
    DoCat(w, [e], rest);
  }

  lemma SafeTail(w: World, es: seq<Effect>)
    requires es != [] && Safe(w, es)
    ensures EffectSafe(w, es[0]) && Safe(Do(w, es[0]), es[1..])
  {
    hide EffectSafe, Do;
    assert es[..0] == [];
    assert EffectSafe(DoAll(w, es[..0]), es[0]);
    forall k | 0 <= k < |es[1..]|
      ensures EffectSafe(DoAll(Do(w, es[0]), es[1..][..k]), es[1..][k])
    {
      assert es[..k + 1] == [es[0]] + es[1..][..k];
      DoCat(w, [es[0]], es[1..][..k]);
      assert [es[0]][..0] == [];
      assert DoAll(w, [es[0]]) == Do(w, es[0]);
      assert EffectSafe(DoAll(w, es[..k + 1]), es[k + 1]);
    }
  }

  // ----- Every safe step keeps the invariant -----

  lemma HistoryExtended(h: seq<Record>, id: nat, r: Record)
    requires HistoryFine(h, id) && h != [] && |h| < MAX_EVENTS
    requires RecordFine(r, id) && TransitionAccepted(h[|h| - 1], r)
    ensures HistoryFine(h + [r], id)
  {
    hide RecordFine, TransitionAccepted;
  }

  lemma {:induction false} SameIdentity(h: seq<Record>, id: nat, k: nat)
    requires HistoryFine(h, id) && k < |h|
    ensures h[k].ident == h[0].ident
  {
    hide RecordFine;
    if k > 0 {
      SameIdentity(h, id, k - 1);
      assert TransitionAccepted(h[k - 1], h[k]);
    }
  }

  lemma HistoriesKept(w: World, e: Effect)
    requires DiskInv(w.disk) && EffectSafe(w, e)
    ensures HistoriesFine(Do(w, e).disk)
  {
    hide RecordFine, HistoryFine, RecordAccepted, TransitionAccepted, SnapshotBound, ClaimsBack, ClaimsNamed, PlansNamed,
    PlanKeysUnique, SnapshotsBind, BackedBy, HasPlanKey, RemovalSafe;
    if e.Append? {
      HistoryExtended(w.disk.histories[e.record.ident.id], e.record.ident.id, e.record);
    } else if e.WriteFirst? {
      FirstHistory(e.record);
    }
  }

  lemma FirstHistory(r: Record)
    requires RecordFine(r, r.ident.id) && r.state.Planned?
    ensures HistoryFine([r], r.ident.id)
  {
    hide RecordFine;
  }

  lemma BackingKept(w: World, e: Effect)
    requires DiskInv(w.disk) && EffectSafe(w, e)
    ensures ClaimsBack(Do(w, e).disk)
  {
    hide RecordFine, HistoryFine, RecordAccepted, TransitionAccepted, SnapshotBound, ClaimsNamed, PlansNamed,
    PlanKeysUnique, SnapshotsBind, HasPlanKey, RemovalSafe, HistoriesFine;
    var d := w.disk;
    var next := Do(w, e).disk;
    forall id, k | id in next.histories && 0 <= k < |next.histories[id]|
      ensures BackedBy(next.histories[id][k], id, next.claims)
    {
      if id in d.histories && k < |d.histories[id]| && next.histories[id][k] == d.histories[id][k] {
        assert BackedBy(d.histories[id][k], id, d.claims);
      }
    }
  }

  lemma NamesKept(w: World, e: Effect)
    requires DiskInv(w.disk) && EffectSafe(w, e)
    ensures ClaimsNamed(Do(w, e).disk)
  {
    hide RecordFine, HistoryFine, RecordAccepted, TransitionAccepted, SnapshotBound, ClaimsBack, PlansNamed,
    PlanKeysUnique, SnapshotsBind, HasPlanKey, HistoriesFine, BackedBy;
  }

  /** The plan keys carried by histories change only when a ChangeSet appears or disappears. */
  lemma PlanKeyFrame(w: World, e: Effect, id: nat, key: nat)
    requires EffectSafe(w, e)
    requires !(e.WriteFirst? && e.record.ident.id == id) && !(e.RemoveChangeSet? && e.id == id)
    ensures HasPlanKey(Do(w, e).disk, id, key) == HasPlanKey(w.disk, id, key)
  {
    hide RecordFine, RecordAccepted, TransitionAccepted, SnapshotBound, BackedBy, RemovalSafe, MaterialMatches;
  }

  lemma PlansKept(w: World, e: Effect)
    requires DiskInv(w.disk) && EffectSafe(w, e)
    ensures PlansNamed(Do(w, e).disk)
  {
    hide RecordFine, HistoryFine, RecordAccepted, TransitionAccepted, SnapshotBound, ClaimsBack, ClaimsNamed,
    PlanKeysUnique, SnapshotsBind, HistoriesFine, BackedBy, MaterialMatches;
    var d := w.disk;
    var next := Do(w, e).disk;
    forall key | key in next.mappings && next.mappings[key].PlanMapping?
      ensures HasPlanKey(next, next.mappings[key].id, key)
    {
      var id := next.mappings[key].id;
      assert HasPlanKey(d, id, key);
      PlanKeyFrame(w, e, id, key);
    }
  }

  lemma PlanKeysKept(w: World, e: Effect)
    requires DiskInv(w.disk) && EffectSafe(w, e)
    ensures PlanKeysUnique(Do(w, e).disk)
  {
    hide RecordFine, HistoryFine, RecordAccepted, TransitionAccepted, SnapshotBound, ClaimsBack, ClaimsNamed,
    PlansNamed, SnapshotsBind, HistoriesFine, BackedBy, MaterialMatches, RemovalSafe;
    var d := w.disk;
    var next := Do(w, e).disk;
    forall a, b, key | HasPlanKey(next, a, key) && HasPlanKey(next, b, key) && key !in next.mappings
      ensures a == b
    {
      CarriedBefore(w, e, a, key);
      CarriedBefore(w, e, b, key);
    }
  }

  lemma CarriedBefore(w: World, e: Effect, id: nat, key: nat)
    requires EffectSafe(w, e)
    requires HasPlanKey(Do(w, e).disk, id, key) && key !in Do(w, e).disk.mappings
    ensures key !in w.disk.mappings
    ensures if e.WriteFirst? && e.record.ident.id == id
            then forall a :: !HasPlanKey(w.disk, a, key)
            else HasPlanKey(w.disk, id, key)
  {
    hide RecordFine, RecordAccepted, TransitionAccepted, SnapshotBound, BackedBy, RemovalSafe, MaterialMatches;
    if !(e.WriteFirst? && e.record.ident.id == id) && !(e.RemoveChangeSet? && e.id == id) {
      PlanKeyFrame(w, e, id, key);
    }
  }

  lemma SnapshotsKept(w: World, e: Effect)
    requires DiskInv(w.disk) && EffectSafe(w, e)
    ensures SnapshotsBind(Do(w, e).disk)
  {
    hide RecordAccepted, TransitionAccepted, ClaimsBack, ClaimsNamed, PlansNamed,
    PlanKeysUnique, BackedBy, HasPlanKey, RemovalSafe, MaterialMatches;
    var d := w.disk;
    var next := Do(w, e).disk;
    forall id | id in next.histories && next.histories[id] != []
      ensures SnapshotBound(next, next.histories[id][0].ident)
    {
      if id in d.histories && d.histories[id] != [] && next.histories[id][0] == d.histories[id][0] {
        assert HistoryFine(d.histories[id], id);
        assert RecordFine(d.histories[id][0], id);
        assert SnapshotBound(d, d.histories[id][0].ident);
      }
    }
  }

  lemma CountSnoc(log: seq<(nat, RemoteWrite)>, entry: (nat, RemoteWrite), id: nat, write: RemoteWrite)
    ensures Count(log + [entry], id, write) == Count(log, id, write) + (if entry == (id, write) then 1 else 0)
  {
    assert (log + [entry])[..|log|] == log;
  }

  lemma BudgetKept(w: World, e: Effect)
    requires Budget(w) && EffectSafe(w, e)
    ensures Budget(Do(w, e))
  {
    hide RecordFine, RecordAccepted, TransitionAccepted, SnapshotBound, BackedBy, RemovalSafe, MaterialMatches,
    HasPlanKey, FirstSafe, Count;
    forall id, write
      ensures WriteBudget(Do(w, e), id, write)
    {
      assert WriteBudget(w, id, write);
      if e.Dispatch? {
        CountSnoc(w.dispatched, (e.id, e.write), id, write);
      }
    }
  }

  lemma VaultKept(w: World, e: Effect)
    requires VaultBinds(w.disk, w.vault) && EffectSafe(w, e)
    ensures VaultBinds(Do(w, e).disk, Do(w, e).vault)
  {
    hide RecordFine, RecordAccepted, TransitionAccepted, SnapshotBound, BackedBy, RemovalSafe, MaterialMatches,
    HasPlanKey;
    var next := Do(w, e);
    forall id | id in next.vault && id in next.disk.histories && next.disk.histories[id] != []
      ensures MaterialMatches(next.vault[id], next.disk.histories[id][0].ident)
    {
      if id in w.vault && id in w.disk.histories && w.disk.histories[id] != [] {
        assert MaterialMatches(w.vault[id], w.disk.histories[id][0].ident);
      }
    }
  }

  /** Every safe step keeps the whole invariant. */
  lemma SafeStepKeeps(w: World, e: Effect)
    requires WorldInv(w) && EffectSafe(w, e)
    ensures WorldInv(Do(w, e))
  {
    HistoriesKept(w, e);
    BackingKept(w, e);
    NamesKept(w, e);
    PlansKept(w, e);
    PlanKeysKept(w, e);
    SnapshotsKept(w, e);
    BudgetKept(w, e);
    VaultKept(w, e);
    hide HistoriesFine, ClaimsBack, ClaimsNamed, PlansNamed, PlanKeysUnique, SnapshotsBind, Budget, VaultBinds, Do,
    EffectSafe;
  }
}
