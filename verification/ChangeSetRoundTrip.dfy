/** Nothing stands in the way of an honest remote: plan, apply and rollback complete and leave the baseline behind. */
module ChangeSetRoundTrip {
  import opened Prelude
  import opened ChangeSetStore
  import opened ChangeSetCalls
  import opened ChangeSetInvariant
  import opened ChangeSetSafety
  import opened ChangeSetOutcomes

  lemma {:induction false} SafeListKeeps(w: World, es: seq<Effect>)
    requires WorldInv(w) && Safe(w, es)
    ensures WorldInv(DoAll(w, es))
    decreases |es|
  {
    hide WorldInv, EffectSafe, Do;
    if es != [] {
      var front := es[..|es| - 1];
      forall k | 0 <= k < |front| ensures EffectSafe(DoAll(w, front[..k]), front[k]) {
        assert front[..k] == es[..k];
      }
      SafeListKeeps(w, front);
      SafeStepKeeps(DoAll(w, front), es[|es| - 1]);
    }
  }

  // ----- One honest write -----

  function WriteSteps(key: nat, action: Action, id: nat, write: RemoteWrite, r: Record): seq<Effect> {
    [WriteMapping(key, ActionMapping(action, id)), WriteClaim(id, action, key)] + [Dispatch(id, write)] + [Append(r)]
  }

  /** The world after a claimed write whose outcome `r` was journaled. */
  function Written(w: World, key: nat, action: Action, write: RemoteWrite, r: Record): World
    requires r.ident.id in w.disk.histories
  {
    var id := r.ident.id;
    World(w.disk.(mappings := w.disk.mappings[key := ActionMapping(action, id)],
                  claims := w.disk.claims[ClaimName(id, action) := key],
                  histories := w.disk.histories[id := w.disk.histories[id] + [r]]),
          w.vault, w.dispatched + [(id, write)])
  }

  lemma WriteStepsDo(w: World, key: nat, action: Action, write: RemoteWrite, r: Record)
    requires r.ident.id in w.disk.histories
    ensures DoAll(w, WriteSteps(key, action, r.ident.id, write, r)) == Written(w, key, action, write, r)
  {
    var id := r.ident.id;
    var a, b, c, d := WriteMapping(key, ActionMapping(action, id)), WriteClaim(id, action, key), Dispatch(id, write), Append(r);
    hide DoAll;
    DoNothing(w);
    DoSnoc(w, [], a);
    DoSnoc(w, [a], b);
    DoSnoc(w, [a, b], c);
    DoSnoc(w, [a, b] + [c], d);
    assert [] + [a] == [a] && [a] + [b] == [a, b];
  }

  lemma DoNothing(w: World)
    ensures DoAll(w, []) == w
  {}

  /** A planned ChangeSet whose private material is still here, and neither claim nor key taken. */
  predicate ReadyToApply(w: World, id: nat, key: nat) {
    && Loadable(w.disk, id) && Last(w.disk, id).state.Planned? && Last(w.disk, id).ident.id == id
    && id in w.vault && MaterialMatches(w.vault[id], Last(w.disk, id).ident)
    && ClaimName(id, Apply) !in w.disk.claims && key !in w.disk.mappings
  }

  /** The remote shows the baseline, takes the write, and answers with the intended state. */
  predicate HonestApplyAnswers(ident: Identity, a: ApplyAnswers) {
    a.seen == Some(Seen(ident.before, ident.revision)) && a.write == Returned(ident.after)
  }

  lemma HonestApply(w: World, id: nat, key: nat, a: ApplyAnswers, now: nat)
    requires WorldInv(w) && ReadyToApply(w, id, key) && Room(w.disk, id, now)
    requires HonestApplyAnswers(Last(w.disk, id).ident, a)
    ensures var r := AppliedRecord(Last(w.disk, id), Last(w.disk, id).ident.after, None, now);
            && ApplyCall(w, id, Key(key), false, a, now)
            == Outcome(WriteSteps(key, Apply, id, ApplyWrite, r), Ok(Success(r, true, false)))
  {
    AfterApplyAccepted(w.disk, id, a, now);
    hide WorldInv, Room, AppendAccepted, Do, DoAll;
    var current := Last(w.disk, id);
    var r := AppliedRecord(current, current.ident.after, None, now);
    assert AfterApply(current, a, now) == Ending(r, [], Ok(Success(r, true, false)));
    var sent := ClaimEffects(w.disk, key, Apply, id) + ApplyWrites(current.ident, a);
    assert sent == [WriteMapping(key, ActionMapping(Apply, id)), WriteClaim(id, Apply, key)] + [Dispatch(id, ApplyWrite)];
    assert sent + [Append(r)] + [] == sent + [Append(r)];
  }

  predicate ReadyToRollBack(w: World, id: nat, key: nat) {
    && Loadable(w.disk, id) && Last(w.disk, id).ident.id == id
    && (Last(w.disk, id).state.Applied? || Last(w.disk, id).state.Verified?)
    && Last(w.disk, id).ident.before != Last(w.disk, id).ident.after
    && SnapshotBound(w.disk, Last(w.disk, id).ident)
    && id in w.vault && MaterialMatches(w.vault[id], Last(w.disk, id).ident)
    && ClaimName(id, Rollback) !in w.disk.claims && key !in w.disk.mappings
  }

  /** The remote shows the applied state, takes the restore, and shows the baseline again. */
  predicate HonestRollbackAnswers(ident: Identity, a: RollbackAnswers) {
    a.seen.Some? && a.seen.value.hash == ident.after && a.restore.Returned? && a.restored == Some(ident.before)
  }

  lemma HonestRollback(w: World, id: nat, key: nat, a: RollbackAnswers, now: nat)
    requires WorldInv(w) && ReadyToRollBack(w, id, key) && Room(w.disk, id, now)
    requires HonestRollbackAnswers(Last(w.disk, id).ident, a)
    ensures var r := RolledBackRecord(Last(w.disk, id), Last(w.disk, id).ident.before, None, now);
            && RollbackCall(w, id, Key(key), false, a, now)
            == Outcome(WriteSteps(key, Rollback, id, RollbackRestore, r) + [DropMaterial(id)], Ok(Success(r, true, false)))
  {
    AfterRestoreAccepted(w.disk, id, a, now);
    hide WorldInv, Room, AppendAccepted, Do, DoAll, SnapshotBound;
    var current := Last(w.disk, id);
    var r := RolledBackRecord(current, current.ident.before, None, now);
    assert AfterRestore(current, a, now) == Ending(r, [DropMaterial(id)], Ok(Success(r, true, false)));
    var sent := ClaimEffects(w.disk, key, Rollback, id) + [Dispatch(id, RollbackRestore)];
    assert sent == [WriteMapping(key, ActionMapping(Rollback, id)), WriteClaim(id, Rollback, key)] + [Dispatch(id, RollbackRestore)];
  }

  // ----- The three calls together -----

  /** What an unkeyed plan leaves behind. */
  function PlannedWorld(w: World, r: Record): World {
    World(w.disk.(histories := w.disk.histories[r.ident.id := [r]],
                  snapshots := w.disk.snapshots[r.ident.id := Snapshot(r.ident.adapter, r.ident.target, r.ident.before)]),
          w.vault[r.ident.id := Material(r.ident.request, r.ident.before, r.ident.revision)], w.dispatched)
  }

  predicate Plannable(p: PlanRequest, a: PlanAnswers) {
    p.key.NoKey? && a.before.Some? && a.planBound && a.before.value.hash != a.after
  }

  lemma PlanDo(w: World, p: PlanRequest, a: PlanAnswers, newId: nat, now: nat)
    requires Plannable(p, a)
    ensures var r := PlannedRecord(p, a, newId, now);
            && PlanCall(w, p, a, newId, now).result == Ok(Success(r, false, true))
            && DoAll(w, PlanCall(w, p, a, newId, now).effects) == PlannedWorld(w, r)
  {
    hide DoAll;
    var r := PlannedRecord(p, a, newId, now);
    var es := PlanCall(w, p, a, newId, now).effects;
    assert es == ([] + [es[0]] + [es[1]]) + [es[2]];
    DoNothing(w);
    DoSnoc(w, [], es[0]);
    DoSnoc(w, [] + [es[0]], es[1]);
    DoSnoc(w, [] + [es[0]] + [es[1]], es[2]);
  }

  lemma NewNameUnclaimed(w: World, newId: nat, action: Action)
    requires WorldInv(w) && NewName(w, newId)
    ensures ClaimName(newId, action) !in w.disk.claims
  {
    hide HistoriesFine, ClaimsBack, PlansNamed, PlanKeysUnique, SnapshotsBind, Budget, VaultBinds;
  }

  /** The journal, the writes and the vault entry of `id` after a complete cycle. */
  predicate Cycled(w: World, t: World, id: nat) {
    && id in t.disk.histories && |t.disk.histories[id]| == 3
    && t.disk.histories[id][0].state.Planned?
    && t.disk.histories[id][1].state.Applied?
    && t.disk.histories[id][2].state.RolledBack?
    && t.dispatched == w.dispatched + [(id, ApplyWrite), (id, RollbackRestore)]
    && t.vault == w.vault
  }

  /** With an honest remote, a plan, its apply and its rollback all succeed, in three records and two writes. */
  lemma PlanApplyRollback(w: World, p: PlanRequest, pa: PlanAnswers, id: nat, applyKey: nat, aa: ApplyAnswers,
                          rollbackKey: nat, ra: RollbackAnswers, t0: nat, t1: nat, t2: nat)
    requires WorldInv(w) && NewName(w, id) && id !in w.disk.littered && Plannable(p, pa) && t0 <= t1 <= t2
    requires applyKey !in w.disk.mappings && rollbackKey !in w.disk.mappings && applyKey != rollbackKey
    requires HonestApplyAnswers(PlannedRecord(p, pa, id, t0).ident, aa)
    requires HonestRollbackAnswers(PlannedRecord(p, pa, id, t0).ident, ra)
    ensures var planned := PlanCall(w, p, pa, id, t0);
            var w1 := DoAll(w, planned.effects);
            var applied := ApplyCall(w1, id, Key(applyKey), false, aa, t1);
            var w2 := DoAll(w1, applied.effects);
            var rolledBack := RollbackCall(w2, id, Key(rollbackKey), false, ra, t2);
            && planned.result.Ok? && applied.result.Ok? && rolledBack.result.Ok?
            && Cycled(w, DoAll(w2, rolledBack.effects), id)
  {
    var r0 := PlannedRecord(p, pa, id, t0);
    var w1 := PlannedWorld(w, r0);
    PlanDo(w, p, pa, id, t0);
    NewNameUnclaimed(w, id, Apply);
    NewNameUnclaimed(w, id, Rollback);
    PlanCallSafe(w, p, pa, id, t0);
    SafeListKeeps(w, PlanCall(w, p, pa, id, t0).effects);
    hide WorldInv, DoAll, PlanCall, ApplyCall, RollbackCall, Safe;
    hide Cycled, Written, PlannedWorld, ReadyToRollBack, HonestApplyAnswers, HonestRollbackAnswers;
    PlannedFacts(w, r0);
    AppliedNext(w, w1, r0, applyKey, aa, t1);
    var r1 := AppliedRecord(r0, r0.ident.after, None, t1);
    var w2 := Written(w1, applyKey, Apply, ApplyWrite, r1);
    ReadyNext(w, r0, r1, applyKey, rollbackKey);
    RolledBackNext(w2, r0, r1, rollbackKey, ra, t2);
    CycleAdds(w, r0, r1, RolledBackRecord(r1, r1.ident.before, None, t2), applyKey, rollbackKey);
  }

  lemma PlannedFacts(w: World, r0: Record)
    ensures r0.ident.id in PlannedWorld(w, r0).disk.histories
  {}

  lemma ReadyNext(w: World, r0: Record, r1: Record, applyKey: nat, rollbackKey: nat)
    requires r0.ident.id !in w.disk.littered && r0.ident.snapshotId == r0.ident.id
    requires r1.ident == r0.ident && r1.state.Applied? && r0.ident.before != r0.ident.after
    requires ClaimName(r0.ident.id, Rollback) !in w.disk.claims
    requires rollbackKey !in w.disk.mappings && applyKey != rollbackKey
    requires r0.ident.id in PlannedWorld(w, r0).disk.histories
    ensures var w2 := Written(PlannedWorld(w, r0), applyKey, Apply, ApplyWrite, r1);
            && Loadable(w2.disk, r1.ident.id) && w2.disk.histories[r1.ident.id] == [r0, r1]
            && ReadyToRollBack(w2, r1.ident.id, rollbackKey)
  {
  }

  lemma CycleAdds(w: World, r0: Record, r1: Record, r2: Record, applyKey: nat, rollbackKey: nat)
    requires r1.ident == r0.ident && r2.ident == r0.ident && r0.ident.id !in w.vault
    requires r0.state.Planned? && r1.state.Applied? && r2.state.RolledBack?
    requires r0.ident.id in PlannedWorld(w, r0).disk.histories
    requires r0.ident.id in Written(PlannedWorld(w, r0), applyKey, Apply, ApplyWrite, r1).disk.histories
    ensures var w2 := Written(PlannedWorld(w, r0), applyKey, Apply, ApplyWrite, r1);
            Cycled(w, Do(Written(w2, rollbackKey, Rollback, RollbackRestore, r2), DropMaterial(r0.ident.id)), r0.ident.id)
  {
    var id := r0.ident.id;
    var w2 := Written(PlannedWorld(w, r0), applyKey, Apply, ApplyWrite, r1);
    var t := Do(Written(w2, rollbackKey, Rollback, RollbackRestore, r2), DropMaterial(id));
    assert t.disk.histories[id] == [r0] + [r1] + [r2];
    assert t.vault == w.vault;
  }

  lemma AppliedNext(w: World, w1: World, r0: Record, key: nat, a: ApplyAnswers, now: nat)
    requires WorldInv(w1) && w1 == PlannedWorld(w, r0) && r0.state.Planned? && r0.updatedAt <= now
    requires r0.ident.id !in w.disk.littered && ClaimName(r0.ident.id, Apply) !in w.disk.claims
    requires key !in w.disk.mappings && HonestApplyAnswers(r0.ident, a)
    ensures var r := AppliedRecord(r0, r0.ident.after, None, now);
            var o := ApplyCall(w1, r0.ident.id, Key(key), false, a, now);
            o.result.Ok? && DoAll(w1, o.effects) == Written(w1, key, Apply, ApplyWrite, r)
            && WorldInv(DoAll(w1, o.effects))
  {
    hide WorldInv, DoAll, ApplyCall, HonestApplyAnswers, WriteSteps, Written, Safe;
    var id := r0.ident.id;
    assert Loadable(w1.disk, id) && Last(w1.disk, id) == r0;
    HonestApply(w1, id, key, a, now);
    WriteStepsDo(w1, key, Apply, ApplyWrite, AppliedRecord(r0, r0.ident.after, None, now));
    ApplyCallSafe(w1, id, Key(key), false, a, now);
    SafeListKeeps(w1, ApplyCall(w1, id, Key(key), false, a, now).effects);
  }

  lemma RolledBackNext(w: World, r0: Record, r1: Record, key: nat, a: RollbackAnswers, now: nat)
    requires WorldInv(w) && r1.ident == r0.ident && r1.state.Applied? && r1.updatedAt <= now
    requires Loadable(w.disk, r1.ident.id) && w.disk.histories[r1.ident.id] == [r0, r1]
    requires ReadyToRollBack(w, r1.ident.id, key) && HonestRollbackAnswers(r1.ident, a)
    ensures var r := RolledBackRecord(r1, r1.ident.before, None, now);
            var o := RollbackCall(w, r1.ident.id, Key(key), false, a, now);
            && o.result.Ok?
            && DoAll(w, o.effects)
            == Do(Written(w, key, Rollback, RollbackRestore, r), DropMaterial(r1.ident.id))
  {
    hide WorldInv, DoAll, RollbackCall, HonestRollbackAnswers, WriteSteps, Written, Do, ReadyToRollBack;
    var id := r1.ident.id;
    assert Last(w.disk, id) == r1;
    HonestRollback(w, id, key, a, now);
    var r := RolledBackRecord(r1, r1.ident.before, None, now);
    WriteStepsDo(w, key, Rollback, RollbackRestore, r);
    DoSnoc(w, WriteSteps(key, Rollback, id, RollbackRestore, r), DropMaterial(id));
  }
}
