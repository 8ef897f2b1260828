/**
 What one call of the engine guarantees: every step it takes is safe, it writes
 to the remote exactly when it may, and every write it sends is journaled.
 */
module ChangeSetSafety {
  import opened Prelude
  import opened ChangeSetStore
  import opened ChangeSetCalls
  import opened ChangeSetInvariant

  // ----- Claims and dispatches -----

  /** World `c` is `w` after the claim on an action was taken, with the journal untouched. */
  predicate ClaimTaken(w: World, c: World, id: nat, action: Action) {
    && c.disk.histories == w.disk.histories
    && c.disk.littered == w.disk.littered
    && ClaimName(id, action) in c.disk.claims
  }

  lemma ClaimSafe(w: World, key: nat, action: Action, id: nat)
    requires WorldInv(w) && id in w.disk.histories && AttemptStatus(w.disk, key, action, id) == Ok(Unclaimed)
    ensures Safe(w, ClaimEffects(w.disk, key, action, id))
    ensures var c := DoAll(w, ClaimEffects(w.disk, key, action, id));
            ClaimTaken(w, c, id, action) && c.dispatched == w.dispatched
  {
    hide WorldInv, Safe, DoAll;
    var claim := WriteClaim(id, action, key);
    if key in w.disk.mappings {
      SafeOne(w, claim);
      assert ClaimEffects(w.disk, key, action, id) == [claim];
    } else {
      var naming := WriteMapping(key, ActionMapping(action, id));
      SafeOne(Do(w, naming), claim);
      SafeCons(w, naming, [claim]);
    }
  }

  lemma UnclaimedUnsent(w: World, id: nat, write: RemoteWrite)
    requires WorldInv(w) && ClaimName(id, ActionOf(write)) !in w.disk.claims
    ensures Count(w.dispatched, id, write) == 0
  {
    hide DiskInv, VaultBinds, Count;
    assert WriteBudget(w, id, write);
  }

  lemma SendOne(w: World, c: World, id: nat, write: RemoteWrite)
    requires ClaimTaken(w, c, id, ActionOf(write)) && Count(c.dispatched, id, write) == 0
    ensures Safe(c, [Dispatch(id, write)])
    ensures ClaimTaken(w, DoAll(c, [Dispatch(id, write)]), id, ActionOf(write))
    ensures DoAll(c, [Dispatch(id, write)]).dispatched == c.dispatched + [(id, write)]
  {
    hide Count;
    SafeOne(c, Dispatch(id, write));
  }

  /** Claim, then one write: safe, and the journal is as it was. */
  lemma ClaimAndSend(w: World, key: nat, id: nat, write: RemoteWrite)
    requires WorldInv(w) && id in w.disk.histories
    requires AttemptStatus(w.disk, key, ActionOf(write), id) == Ok(Unclaimed)
    ensures var sent := ClaimEffects(w.disk, key, ActionOf(write), id) + [Dispatch(id, write)];
            && Safe(w, sent)
            && ClaimTaken(w, DoAll(w, sent), id, ActionOf(write))
            && DoAll(w, sent).dispatched == w.dispatched + [(id, write)]
  {
    hide WorldInv, Safe, DoAll, ClaimEffects, EffectSafe, Do, Count;
    var claimed := ClaimEffects(w.disk, key, ActionOf(write), id);
    ClaimSafe(w, key, ActionOf(write), id);
    UnclaimedUnsent(w, id, write);
    SendOne(w, DoAll(w, claimed), id, write);
    SafeCat(w, claimed, [Dispatch(id, write)]);
    DoCat(w, claimed, [Dispatch(id, write)]);
  }

  /** Claim, apply, then one recovery restore. */
  lemma ClaimSendRecover(w: World, key: nat, id: nat)
    requires WorldInv(w) && id in w.disk.histories && AttemptStatus(w.disk, key, Apply, id) == Ok(Unclaimed)
    ensures var sent := ClaimEffects(w.disk, key, Apply, id) + [Dispatch(id, ApplyWrite)] + [Dispatch(id, RecoveryRestore)];
            Safe(w, sent) && ClaimTaken(w, DoAll(w, sent), id, Apply)
  {
    hide WorldInv, Safe, DoAll, ClaimEffects, EffectSafe, Do, Count;
    var sent := ClaimEffects(w.disk, key, Apply, id) + [Dispatch(id, ApplyWrite)];
    ClaimAndSend(w, key, id, ApplyWrite);
    UnclaimedUnsent(w, id, RecoveryRestore);
    CountSnoc(w.dispatched, (id, ApplyWrite), id, RecoveryRestore);
    SendOne(w, DoAll(w, sent), id, RecoveryRestore);
    SafeCat(w, sent, [Dispatch(id, RecoveryRestore)]);
    DoCat(w, sent, [Dispatch(id, RecoveryRestore)]);
  }

  // ----- Appends -----

  /** A record that may follow `current`: same identity, and an outcome that says what it must. */
  predicate Follows(current: Record, r: Record) {
    && r.ident == current.ident
    && (r.state.Planned? ==> r.appliedHash.None?)
    && (r.state.Applied? || r.state.Verified? ==> r.appliedHash == Some(r.ident.after))
  }

  predicate Closing(after: seq<Effect>) {
    after == [] || (|after| == 1 && after[0].DropMaterial?)
  }

  lemma LastFine(d: Disk, id: nat)
    requires HistoriesFine(d) && Loadable(d, id)
    ensures RecordFine(Last(d, id), id)
  {
    assert HistoryFine(d.histories[id], id);
  }

  lemma AppendSafe(w: World, c: World, id: nat, r: Record)
    requires HistoriesFine(w.disk) && Loadable(w.disk, id)
    requires c.disk.histories == w.disk.histories && c.disk.littered == w.disk.littered
    requires Follows(Last(w.disk, id), r) && BackedBy(r, id, c.disk.claims)
    requires AppendAccepted(w.disk, r)
    ensures EffectSafe(c, Append(r))
  {
    hide HistoriesFine, TransitionAccepted;
    LastFine(w.disk, id);
  }

  lemma ClosingSafe(w: World, after: seq<Effect>)
    requires Closing(after)
    ensures Safe(w, after)
  {
  }

  lemma FinishSafe(w: World, sent: seq<Effect>, id: nat, e: Ending)
    requires WorldInv(w) && Safe(w, sent) && Loadable(w.disk, id)
    requires DoAll(w, sent).disk.histories == w.disk.histories && DoAll(w, sent).disk.littered == w.disk.littered
    requires Follows(Last(w.disk, id), e.record) && BackedBy(e.record, id, DoAll(w, sent).disk.claims)
    requires Closing(e.closing)
    ensures Safe(w, Finish(w.disk, sent, e).effects)
  {
    hide Safe, DoAll, EffectSafe, Do, Follows, BackedBy, AppendAccepted, Loadable, Closing;
    hide HistoriesFine, ClaimsBack, ClaimsNamed, PlansNamed, PlanKeysUnique, SnapshotsBind, Budget, VaultBinds;
    if AppendAccepted(w.disk, e.record) {
      var c := DoAll(w, sent);
      AppendSafe(w, c, id, e.record);
      ClosingSafe(Do(c, Append(e.record)), e.closing);
      SafeCons(c, Append(e.record), e.closing);
      SafeCat(w, sent, [Append(e.record)] + e.closing);
      assert sent + [Append(e.record)] + e.closing == sent + ([Append(e.record)] + e.closing);
    }
  }

  lemma EmptySafe(w: World)
    ensures Safe(w, []) && DoAll(w, []) == w
  {
  }

  // ----- Each call takes only safe steps -----

  lemma ApplyCallSafe(w: World, id: nat, key: KeyArg, dryRun: bool, a: ApplyAnswers, now: nat)
    requires WorldInv(w)
    ensures Safe(w, ApplyCall(w, id, key, dryRun, a, now).effects)
  {
    hide WorldInv, Safe, DoAll, Finish, ApplyOnce, ApplyReplay, Closing, Follows;
    EmptySafe(w);
    if Loadable(w.disk, id) && key.Key? {
      var attempt := AttemptStatus(w.disk, key.digest, Apply, id);
      if attempt == Ok(Replay) && a.seen.Some? && Last(w.disk, id).state.Planned? {
        ReplayFollows(Last(w.disk, id), a.seen.value.hash, now);
        FinishSafe(w, [], id, ApplyReplay(Last(w.disk, id), a.seen.value.hash, now));
      } else if attempt == Ok(Unclaimed) && a.seen.Some? && Last(w.disk, id).state.Planned? {
        ApplyOnceSafe(w, id, key.digest, a, now);
      }
    }
  }

  lemma ReplayFollows(current: Record, actual: Hash, now: nat)
    requires current.state.Planned?
    ensures var e := ApplyReplay(current, actual, now);
            Follows(current, e.record) && Closing(e.closing) && !e.record.state.Planned? && !e.record.state.RolledBack?
  {
  }

  lemma AfterApplyFollows(current: Record, a: ApplyAnswers, now: nat)
    requires current.state.Planned?
    ensures var e := AfterApply(current, a, now);
            Follows(current, e.record) && Closing(e.closing) && !e.record.state.Planned? && !e.record.state.RolledBack?
  {
  }

  lemma ApplySentSafe(w: World, key: nat, ident: Identity, a: ApplyAnswers)
    requires WorldInv(w) && ident.id in w.disk.histories && AttemptStatus(w.disk, key, Apply, ident.id) == Ok(Unclaimed)
    ensures var sent := ClaimEffects(w.disk, key, Apply, ident.id) + ApplyWrites(ident, a);
            Safe(w, sent) && ClaimTaken(w, DoAll(w, sent), ident.id, Apply)
  {
    hide WorldInv, Safe, DoAll, ClaimEffects, AttemptStatus;
    var claimed := ClaimEffects(w.disk, key, Apply, ident.id);
    if Recovers(ident, a) {
      ClaimSendRecover(w, key, ident.id);
      assert claimed + ([Dispatch(ident.id, ApplyWrite)] + [Dispatch(ident.id, RecoveryRestore)])
          == claimed + [Dispatch(ident.id, ApplyWrite)] + [Dispatch(ident.id, RecoveryRestore)];
    } else {
      ClaimAndSend(w, key, ident.id, ApplyWrite);
      assert ApplyWrites(ident, a) == [Dispatch(ident.id, ApplyWrite)];
    }
  }

  lemma ApplyOnceSafe(w: World, id: nat, digest: nat, a: ApplyAnswers, now: nat)
    requires WorldInv(w) && Loadable(w.disk, id) && a.seen.Some? && Last(w.disk, id).state.Planned?
    requires AttemptStatus(w.disk, digest, Apply, id) == Ok(Unclaimed)
    ensures Safe(w, ApplyOnce(w.disk, Last(w.disk, id), digest, a, now).effects)
  {
    hide Safe, DoAll, Finish, AfterApply, ApplyWrites, Follows, Closing, ClaimEffects, AttemptStatus, RecordAccepted;
    hide ClaimsBack, ClaimsNamed, PlansNamed, PlanKeysUnique, SnapshotsBind, Budget, VaultBinds, HistoriesFine;
    var current := Last(w.disk, id);
    EmptySafe(w);
    LastFine(w.disk, id);
    AfterApplyFollows(current, a, now);
    ApplySentSafe(w, digest, current.ident, a);
    FinishSafe(w, ClaimEffects(w.disk, digest, Apply, id) + ApplyWrites(current.ident, a), id, AfterApply(current, a, now));
  }

  lemma VerifyCallSafe(w: World, id: nat, actual: Option<Seen>, now: nat)
    requires WorldInv(w)
    ensures Safe(w, VerifyCall(w, id, actual, now).effects)
  {
    hide Safe, DoAll, Finish, ClaimsNamed, PlansNamed, PlanKeysUnique, SnapshotsBind, Budget, VaultBinds, HistoriesFine;
    EmptySafe(w);
    if Loadable(w.disk, id) {
      var current := Last(w.disk, id);
      var expected := ExpectedForVerification(current);
      LastFine(w.disk, id);
      if expected.Ok? && actual.Some? {
        var next := VerifyRecord(current, expected.value, actual.value.hash, now);
        LastBacked(w.disk, id);
        FinishSafe(w, [], id, Ending(next, [], if expected.value == actual.value.hash
                                     then Ok(Success(next, false, true)) else Err(VerificationFailed)));
      }
    }
  }

  lemma LastBacked(d: Disk, id: nat)
    requires ClaimsBack(d) && Loadable(d, id)
    ensures BackedBy(Last(d, id), id, d.claims)
  {
    hide BackedBy;
  }

  lemma RollbackFollows(current: Record, actual: Hash, now: nat)
    requires !current.state.Planned? || current.appliedHash.None?
    ensures var e := RollbackReplay(current, actual, now);
            e.Ok? ==> Follows(current, e.value.record) && Closing(e.value.closing)
                      && (e.value.record.state.Failed? || e.value.record.state.RolledBack?)
  {
  }

  lemma RestoreFollows(current: Record, a: RollbackAnswers, now: nat)
    ensures var e := AfterRestore(current, a, now);
            Follows(current, e.record) && Closing(e.closing) && (e.record.state.Failed? || e.record.state.RolledBack?)
  {
  }

  lemma RollbackCallSafe(w: World, id: nat, key: KeyArg, dryRun: bool, a: RollbackAnswers, now: nat)
    requires WorldInv(w)
    ensures Safe(w, RollbackCall(w, id, key, dryRun, a, now).effects)
  {
    hide Safe, DoAll, Finish, RollbackOnce, RollbackReplay, Closing, Follows, SnapshotBound, RecordAccepted;
    hide ClaimsBack, ClaimsNamed, PlansNamed, PlanKeysUnique, SnapshotsBind, Budget, VaultBinds, HistoriesFine;
    EmptySafe(w);
    if Loadable(w.disk, id) && key.Key? && a.seen.Some? {
      var attempt := AttemptStatus(w.disk, key.digest, Rollback, id);
      LastFine(w.disk, id);
      if attempt == Ok(Replay) {
        var replay := RollbackReplay(Last(w.disk, id), a.seen.value.hash, now);
        RollbackFollows(Last(w.disk, id), a.seen.value.hash, now);
        if replay.Ok? {
          FinishSafe(w, [], id, replay.value);
        }
      } else if attempt == Ok(Unclaimed) {
        RollbackOnceSafe(w, id, key.digest, a, now);
      }
    }
  }

  lemma RollbackOnceSafe(w: World, id: nat, digest: nat, a: RollbackAnswers, now: nat)
    requires WorldInv(w) && Loadable(w.disk, id) && a.seen.Some?
    requires AttemptStatus(w.disk, digest, Rollback, id) == Ok(Unclaimed)
    ensures Safe(w, RollbackOnce(w, Last(w.disk, id), digest, a, now).effects)
  {
    hide Safe, DoAll, Finish, AfterRestore, ClaimEffects, AttemptStatus, RecordAccepted;
    hide ClaimsBack, ClaimsNamed, PlansNamed, PlanKeysUnique, SnapshotsBind, Budget, VaultBinds, HistoriesFine;
    var current := Last(w.disk, id);
    var claimed := ClaimEffects(w.disk, digest, Rollback, id);
    EmptySafe(w);
    LastFine(w.disk, id);
    RestoreFollows(current, a, now);
    ClaimSafe(w, digest, Rollback, id);
    var r := RolledBackRecord(current, a.seen.value.hash, None, now);
    FinishSafe(w, claimed, id, Ending(r, [DropMaterial(id)], Ok(Success(r, false, false))));
    ClaimAndSend(w, digest, id, RollbackRestore);
    FinishSafe(w, claimed + [Dispatch(id, RollbackRestore)], id, AfterRestore(current, a, now));
  }

  // ----- plan -----

  lemma CarriedIsNamed(d: Disk, key: nat, id: nat)
    requires HistoriesFine(d) && Loadable(d, id) && HasPlanKey(d, id, key)
    ensures NamedBy(d, id, key)
  {
    hide RecordAccepted;
    assert HistoryFine(d.histories[id], id);
    SameIdentity(d.histories[id], id, |d.histories[id]| - 1);
  }

  /** An unbound key that names no plan is carried by no ChangeSet. */
  lemma UnnamedIsUncarried(d: Disk, key: nat, id: nat)
    requires HistoriesFine(d) && key !in d.mappings && FindPlan(d, key) == Ok(None)
    ensures !HasPlanKey(d, id, key)
  {
    hide HistoriesFine;
    if id in d.histories && HasPlanKey(d, id, key) {
      CarriedIsNamed(d, key, id);
    }
  }

  predicate NewName(w: World, newId: nat) {
    newId !in w.disk.histories && newId !in w.vault
  }

  lemma PlanCallSafe(w: World, p: PlanRequest, a: PlanAnswers, newId: nat, now: nat)
    requires WorldInv(w) && NewName(w, newId)
    ensures Safe(w, PlanCall(w, p, a, newId, now).effects)
  {
    hide WorldInv, Safe, DoAll, PlanNew, FindPlan;
    EmptySafe(w);
    if p.key.NoKey? || (p.key.Key? && FindPlan(w.disk, p.key.digest) == Ok(None)) {
      PlanNewSafe(w, p, a, newId, now);
    }
  }

  function PlannedMaterial(r: Record): Material {
    Material(r.ident.request, r.ident.before, r.ident.revision)
  }

  function PlannedSnapshot(r: Record): Snapshot {
    Snapshot(r.ident.adapter, r.ident.target, r.ident.before)
  }

  function PlanSteps(r: Record): seq<Effect> {
    [PutMaterial(r.ident.id, PlannedMaterial(r)), WriteSnapshot(r.ident.id, PlannedSnapshot(r)), WriteFirst(r)]
  }

  ghost predicate PlannableRecord(w: World, r: Record) {
    && NewName(w, r.ident.id)
    && RecordFine(r, r.ident.id) && r.state.Planned?
    && (r.ident.planKey.Some? && r.ident.planKey.value !in w.disk.mappings ==>
          forall id :: id in w.disk.histories ==> !HasPlanKey(w.disk, id, r.ident.planKey.value))
  }

  lemma FirstIsSafe(w: World, r: Record)
    requires PlannableRecord(w, r)
    ensures EffectSafe(Do(Do(w, PlanSteps(r)[0]), PlanSteps(r)[1]), WriteFirst(r))
  {
    hide RecordAccepted, HasPlanKey;
    var two := Do(Do(w, PlanSteps(r)[0]), PlanSteps(r)[1]);
    assert two.disk.histories == w.disk.histories;
    forall id, key ensures HasPlanKey(two.disk, id, key) == HasPlanKey(w.disk, id, key) { HasPlanKeyReads(two.disk, w.disk, id, key); }
  }

  lemma HasPlanKeyReads(a: Disk, b: Disk, id: nat, key: nat)
    requires a.histories == b.histories
    ensures HasPlanKey(a, id, key) == HasPlanKey(b, id, key)
  {
  }

  lemma PlanStepsSafe(w: World, r: Record)
    requires PlannableRecord(w, r)
    ensures Safe(w, PlanSteps(r))
    ensures DoAll(w, PlanSteps(r)).disk
         == w.disk.(histories := w.disk.histories[r.ident.id := [r]],
                    snapshots := w.disk.snapshots[r.ident.id := PlannedSnapshot(r)])
  {
    hide Safe, DoAll, RecordFine, HasPlanKey;
    var es := PlanSteps(r);
    var one := Do(w, es[0]);
    FirstIsSafe(w, r);
    SafeOne(Do(one, es[1]), es[2]);
    SafeCons(one, es[1], [es[2]]);
    SafeCons(w, es[0], [es[1]] + [es[2]]);
    assert es == [es[0]] + ([es[1]] + [es[2]]);
  }

  lemma PlanNewSafe(w: World, p: PlanRequest, a: PlanAnswers, newId: nat, now: nat)
    requires WorldInv(w) && NewName(w, newId) && (p.key.NoKey? || p.key.Key?)
    requires p.key.Key? ==> FindPlan(w.disk, p.key.digest) == Ok(None)
    ensures Safe(w, PlanNew(w, p, a, newId, now).effects)
  {
    hide Safe, DoAll, FindPlan, HasPlanKey, Do, EffectSafe, PlanSteps;
    hide HistoriesFine, ClaimsBack, ClaimsNamed, PlansNamed, PlanKeysUnique, SnapshotsBind, Budget, VaultBinds;
    EmptySafe(w);
    if a.before.Some? && a.planBound && a.before.value.hash != a.after {
      var r := PlannedRecord(p, a, newId, now);
      if p.key.Key? && p.key.digest !in w.disk.mappings {
        forall id ensures !HasPlanKey(w.disk, id, p.key.digest) { UnnamedIsUncarried(w.disk, p.key.digest, id); }
      }
      PlanStepsSafe(w, r);
      PlanClosingSafe(w, r);
      PlanNewSteps(w, p, a, newId, now);
    }
  }

  function PlanClosing(w: World, r: Record): seq<Effect> {
    if r.ident.planKey.None? then []
    else if r.ident.planKey.value in w.disk.mappings then
      [RemoveChangeSet(r.ident.id), DropMaterial(r.ident.id)]
      + (if AllLoadable(w.disk) then [DiscardSnapshot(r.ident.id)] else [])
    else [WriteMapping(r.ident.planKey.value, PlanMapping(r.ident.id))]
  }

  lemma PlanNewSteps(w: World, p: PlanRequest, a: PlanAnswers, newId: nat, now: nat)
    requires a.before.Some? && a.planBound && a.before.value.hash != a.after && !p.key.MalformedKey?
    ensures var r := PlannedRecord(p, a, newId, now);
            PlanNew(w, p, a, newId, now).effects == PlanSteps(r) + PlanClosing(w, r)
  {
    hide AllLoadable;
  }

  lemma PlanClosingSafe(w: World, r: Record)
    requires WorldInv(w) && PlannableRecord(w, r) && Safe(w, PlanSteps(r))
    requires DoAll(w, PlanSteps(r)).disk
          == w.disk.(histories := w.disk.histories[r.ident.id := [r]],
                     snapshots := w.disk.snapshots[r.ident.id := PlannedSnapshot(r)])
    ensures Safe(w, PlanSteps(r) + PlanClosing(w, r))
  {
    hide Safe, DoAll, PlanSteps, PlanClosing, EffectSafe, Do, WorldInv, RecordFine, HasPlanKey;
    var c := DoAll(w, PlanSteps(r));
    EmptySafe(c);
    if r.ident.planKey.Some? && r.ident.planKey.value in w.disk.mappings {
      UndoSafe(w, c, r);
    } else if r.ident.planKey.Some? {
      Unreferenced(w, r.ident.id);
      NamingSafe(w, c, r);
    }
    PlanClosingCases(w, r);
    SafeCat(w, PlanSteps(r), PlanClosing(w, r));
  }

  lemma PlanClosingCases(w: World, r: Record)
    ensures r.ident.planKey.None? ==> PlanClosing(w, r) == []
    ensures r.ident.planKey.Some? && r.ident.planKey.value !in w.disk.mappings ==>
              PlanClosing(w, r) == [WriteMapping(r.ident.planKey.value, PlanMapping(r.ident.id))]
  {
  }

  lemma NamingSafe(w: World, c: World, r: Record)
    requires r.ident.planKey.Some? && r.ident.planKey.value !in w.disk.mappings
    requires c.disk.histories == w.disk.histories[r.ident.id := [r]] && c.disk.mappings == w.disk.mappings
    requires c.disk.claims == w.disk.claims && RemovalSafe(w.disk, r.ident.id)
    ensures Safe(c, [WriteMapping(r.ident.planKey.value, PlanMapping(r.ident.id))])
  {
    hide Safe;
    SafeOne(c, WriteMapping(r.ident.planKey.value, PlanMapping(r.ident.id)));
  }

  lemma Unreferenced(w: World, id: nat)
    requires WorldInv(w) && id !in w.disk.histories
    ensures RemovalSafe(w.disk, id)
  {
    hide HistoriesFine, ClaimsBack, PlanKeysUnique, SnapshotsBind, Budget, VaultBinds;
  }

  lemma UndoSafe(w: World, c: World, r: Record)
    requires WorldInv(w) && r.ident.id !in w.disk.histories
    requires r.ident.planKey.Some? && r.ident.planKey.value in w.disk.mappings
    requires c.disk.claims == w.disk.claims && c.disk.mappings == w.disk.mappings
    ensures Safe(c, PlanClosing(w, r))
  {
    hide Safe, DoAll, WorldInv, AllLoadable;
    var id := r.ident.id;
    Unreferenced(w, id);
    var one := Do(c, RemoveChangeSet(id));
    var two := Do(one, DropMaterial(id));
    var rest := if AllLoadable(w.disk) then [DiscardSnapshot(id)] else [];
    if rest == [] { EmptySafe(two); } else { SafeOne(two, DiscardSnapshot(id)); }
    SafeCons(one, DropMaterial(id), rest);
    SafeCons(c, RemoveChangeSet(id), [DropMaterial(id)] + rest);
    assert PlanClosing(w, r) == [RemoveChangeSet(id)] + ([DropMaterial(id)] + rest);
  }
}
