/** What each engine call refuses and why, and what its record, its answer and the vault say when it goes through. */
module ChangeSetRecords {
  import opened Prelude
  import opened ChangeSetStore
  import opened ChangeSetCalls
  import opened ChangeSetInvariant
  import opened ChangeSetSafety
  import opened ChangeSetOutcomes
  import opened ChangeSetVerdicts
  import opened ChangeSetAnswers

  predicate Journals(o: Outcome, r: Record) { Append(r) in o.effects }

  predicate Standing(o: Outcome, r: Record, dryRun: bool) {
    o.effects == [] && o.result == Ok(Success(r, false, dryRun))
  }

  /** Only what names the failing step may be told apart by a caller: each failure code has its error. */
  function ErrorOf(code: FailureCode): Error {
    match code
    case ApplyFailedUnchanged => ErrApplyFailedUnchanged
    case ApplyPreviousAttemptUnchanged => RecoveryRequired
    case ApplyVerificationFailedRecovered => ErrApplyVerificationFailed
    case ApplyVerificationFailedRecoveryUnproven => ErrApplyVerificationFailed
    case ApplyAmbiguous => ErrApplyAmbiguous
    case RollbackFailedUnchanged => ErrRollbackFailedUnchanged
    case RollbackPreviousAttemptUnchanged => RecoveryRequired
    case RollbackAmbiguous => ErrRollbackAmbiguous
  }

  // ----- apply: what is refused -----

  /** Planned, with its private material still here. */
  predicate Prepared(w: World, id: nat) {
    Loadable(w.disk, id) && Last(w.disk, id).state.Planned? && id in w.vault
  }

  predicate Usable(d: Disk, key: nat, action: Action, id: nat) {
    Own(d, key, action, id) || Free(d, key, action, id)
  }

  predicate Fresh(ident: Identity, s: Seen) {
    s.hash == ident.before && (ident.revision.Some? ==> s.revision == ident.revision)
  }

  /** Before any key is looked at. */
  lemma CallsNeedAJournalAndAKey(w: World, id: nat, key: KeyArg, dryRun: bool, a: ApplyAnswers, ra: RollbackAnswers, now: nat)
    ensures id !in w.disk.histories ==>
              ApplyCall(w, id, key, dryRun, a, now) == Refuse(ChangeSetNotFound)
              && RollbackCall(w, id, key, dryRun, ra, now) == Refuse(ChangeSetNotFound)
    ensures id in w.disk.histories && !Loadable(w.disk, id) ==>
              ApplyCall(w, id, key, dryRun, a, now) == Refuse(StateCorrupt)
              && RollbackCall(w, id, key, dryRun, ra, now) == Refuse(StateCorrupt)
    ensures Loadable(w.disk, id) && dryRun ==>
              Standing(ApplyCall(w, id, key, dryRun, a, now), Last(w.disk, id), true)
              && Standing(RollbackCall(w, id, key, dryRun, ra, now), Last(w.disk, id), true)
    ensures Loadable(w.disk, id) && !dryRun && key.NoKey? ==>
              ApplyCall(w, id, key, dryRun, a, now) == Refuse(IdempotencyKeyRequired)
              && RollbackCall(w, id, key, dryRun, ra, now) == Refuse(IdempotencyKeyRequired)
    ensures Loadable(w.disk, id) && !dryRun && key.MalformedKey? ==>
              ApplyCall(w, id, key, dryRun, a, now) == Refuse(InvalidIdempotencyKey)
              && RollbackCall(w, id, key, dryRun, ra, now) == Refuse(InvalidIdempotencyKey)
  {
    hide ApplyReplay, ApplyOnce, RollbackReplay, RollbackOnce, Finish, SnapshotBound, AttemptStatus;
  }

  /** A usable key on a ChangeSet that is not PLANNED: an apply reports what stands or is refused. */
  lemma ApplyNeedsAPlan(w: World, id: nat, key: nat, a: ApplyAnswers, now: nat)
    requires WorldInv(w) && Loadable(w.disk, id) && Usable(w.disk, key, Apply, id)
    ensures var current := Last(w.disk, id);
            var o := ApplyCall(w, id, Key(key), false, a, now);
            && (current.state.Applied? || current.state.Verified? ==> Standing(o, current, false))
            && (current.state.Failed? || current.state.RolledBack? ==> o == Refuse(ChangeSetNotApplicable))
            && (current.state.Planned? && id !in w.vault ==> o == Refuse(PlanMaterialUnavailable))
            && (Prepared(w, id) && a.seen.None? ==> o == Refuse(ReadFailed))
  {
    ApplyNeverFindsCorruption(w, id, Key(key), false, a, now);
    hide ApplyReplay, ApplyOnce, Finish, WorldInv;
  }

  /** A first apply over a target that is not the planned baseline is refused before anything is claimed or written. */
  lemma StaleApplyIsRefused(w: World, id: nat, key: nat, a: ApplyAnswers, now: nat)
    requires WorldInv(w) && Prepared(w, id) && Free(w.disk, key, Apply, id) && a.seen.Some?
    ensures var ident := Last(w.disk, id).ident;
            var o := ApplyCall(w, id, Key(key), false, a, now);
            && (a.seen.value.hash != ident.before ==> o == Refuse(StaleTarget))
            && (a.seen.value.hash == ident.before && !Fresh(ident, a.seen.value) ==> o == Refuse(StaleRevision))
  {
    ApplyNeverFindsCorruption(w, id, Key(key), false, a, now);
    hide ApplyReplay, Finish, WorldInv, AfterApply;
  }

  /** With room in the journal an apply journals exactly when it is prepared, may use its key, and reads a target it may act on. */
  lemma ApplyJournalsExactly(w: World, id: nat, key: KeyArg, dryRun: bool, a: ApplyAnswers, now: nat)
    requires WorldInv(w) && Room(w.disk, id, now)
    ensures (exists r :: Journals(ApplyCall(w, id, key, dryRun, a, now), r)) <==>
            && Prepared(w, id) && !dryRun && key.Key? && a.seen.Some?
            && (Own(w.disk, key.digest, Apply, id)
                || (Free(w.disk, key.digest, Apply, id) && Fresh(Last(w.disk, id).ident, a.seen.value)))
  {
    hide ApplyReplay, AfterApply, AppendAccepted, RecordAccepted, ClaimEffects, ApplyWrites, MaterialMatches, Room;
    hide ClaimsBack, ClaimsNamed, PlansNamed, PlanKeysUnique, SnapshotsBind, Budget, HistoriesFine;
    if Loadable(w.disk, id) && Last(w.disk, id).state.Planned? && a.seen.Some? {
      ReplayAccepted(w.disk, id, a.seen.value.hash, now);
      AfterApplyAccepted(w.disk, id, a, now);
    }
    ApplyNeverFindsCorruption(w, id, key, dryRun, a, now);
    var o := ApplyCall(w, id, key, dryRun, a, now);
    if Prepared(w, id) && !dryRun && key.Key? && a.seen.Some? {
      ApplyShape(w, id, key.digest, a, now);
    } else {
      assert o.effects == [] by { UnpreparedIsSilent(w, id, key, dryRun, a, now); }
    }
  }

  lemma UnpreparedIsSilent(w: World, id: nat, key: KeyArg, dryRun: bool, a: ApplyAnswers, now: nat)
    requires !(Prepared(w, id) && !dryRun && key.Key? && a.seen.Some?)
    ensures ApplyCall(w, id, key, dryRun, a, now).effects == []
  {
    hide ApplyReplay, ApplyOnce, Finish, AttemptStatus;
  }

  lemma ApplyShape(w: World, id: nat, key: nat, a: ApplyAnswers, now: nat)
    requires WorldInv(w) && Room(w.disk, id, now) && Prepared(w, id) && a.seen.Some?
    ensures (exists r :: Journals(ApplyCall(w, id, Key(key), false, a, now), r)) <==>
            || Own(w.disk, key, Apply, id)
            || (Free(w.disk, key, Apply, id) && Fresh(Last(w.disk, id).ident, a.seen.value))
  {
    hide WorldInv, Room, AppendAccepted, ClaimEffects, ApplyWrites, ApplyReplay, AfterApply;
    var current := Last(w.disk, id);
    var o := ApplyCall(w, id, Key(key), false, a, now);
    ApplyNeverFindsCorruption(w, id, Key(key), false, a, now);
    Accepts(w, id, a, now);
    if Own(w.disk, key, Apply, id) {
      JournaledBy(w.disk, [], ApplyReplay(current, a.seen.value.hash, now));
    } else if Free(w.disk, key, Apply, id) && Fresh(current.ident, a.seen.value) {
      JournaledBy(w.disk, ClaimEffects(w.disk, key, Apply, current.ident.id) + ApplyWrites(current.ident, a), AfterApply(current, a, now));
    }
  }

  lemma Accepts(w: World, id: nat, a: ApplyAnswers, now: nat)
    requires WorldInv(w) && Room(w.disk, id, now) && Prepared(w, id) && a.seen.Some?
    ensures AppendAccepted(w.disk, ApplyReplay(Last(w.disk, id), a.seen.value.hash, now).record)
    ensures AppendAccepted(w.disk, AfterApply(Last(w.disk, id), a, now).record)
  {
    ReplayAccepted(w.disk, id, a.seen.value.hash, now);
    AfterApplyAccepted(w.disk, id, a, now);
  }

  lemma JournaledBy(d: Disk, sent: seq<Effect>, e: Ending)
    requires AppendAccepted(d, e.record)
    ensures Journals(Finish(d, sent, e), e.record)
  {
    hide AppendAccepted;
    var es := sent + [Append(e.record)] + e.closing;
    assert es[|sent|] == Append(e.record);
  }

  // ----- apply: what it records and answers -----

  /** How a failed apply is named, from whether it was a replay, how its write ended and what it saw. */
  function ApplyFailureName(ident: Identity, claimed: bool, a: ApplyAnswers): FailureCode
    requires a.seen.Some?
  {
    if claimed then (if a.seen.value.hash == ident.before then ApplyPreviousAttemptUnchanged else ApplyAmbiguous)
    else if a.write.Returned? then
      (if a.recovered == Some(ident.before) then ApplyVerificationFailedRecovered else ApplyVerificationFailedRecoveryUnproven)
    else if !a.write.unstable && a.diagnostic == Some(ident.before) then ApplyFailedUnchanged
    else ApplyAmbiguous
  }

  /** What the record says the write left behind: nothing when the target was found at its baseline. */
  function ApplyTrace(ident: Identity, claimed: bool, a: ApplyAnswers): Option<Hash>
    requires a.seen.Some?
  {
    if claimed then (if a.seen.value.hash == ident.before then None else Some(a.seen.value.hash))
    else if a.write.Returned? then Some(a.write.hash)
    else if ApplyFailureName(ident, claimed, a).ApplyFailedUnchanged? then None
    else a.diagnostic
  }

  predicate BackAtBaseline(code: FailureCode) {
    code.ApplyFailedUnchanged? || code.ApplyPreviousAttemptUnchanged? || code.ApplyVerificationFailedRecovered?
  }

  function ApplyReconciled(claimed: bool, a: ApplyAnswers): Option<ReconciliationCode> {
    if claimed then Some(ApplyReplayReconciled) else if a.write.Threw? then Some(ApplyErrorReconciled) else None
  }

  /** The record agrees with what happened, and the answer with the record. */
  predicate ApplyTold(current: Record, claimed: bool, a: ApplyAnswers, now: nat, r: Record, result: Result<Success, Error>)
    requires a.seen.Some?
  {
    var ident := current.ident;
    && r.ident == ident && r.updatedAt == now
    && (if ApplyLastSeen(ident, claimed, a) == Some(ident.after) && !ApplyInDoubt(ident, claimed, a) then
          && r.state.Applied? && r.appliedHash == Some(ident.after) && r.failure == current.failure
          && r.reconciliation == (if ApplyReconciled(claimed, a).Some? then ApplyReconciled(claimed, a) else current.reconciliation)
          && r.verification == Some(Verification(now, ident.after, ident.after, true))
          && result == Ok(Success(r, !claimed, false))
        else
          && r.state.Failed? && r.failure == Some(ApplyFailureName(ident, claimed, a)) && r.reconciliation == current.reconciliation
          && r.appliedHash == (if ApplyTrace(ident, claimed, a).Some? then ApplyTrace(ident, claimed, a) else current.appliedHash)
          && FailureChecked(current, r, ApplyLastSeen(ident, claimed, a), now)
          && result == Err(ErrorOf(r.failure.value)))
  }

  /** The check in a failed record compares the last sight with the baseline where the failure speaks of it, else with the new state. */
  predicate FailureChecked(current: Record, r: Record, lastSeen: Option<Hash>, now: nat)
    requires r.failure.Some?
  {
    if lastSeen.None? then r.verification == current.verification
    else
      && r.verification.Some? && r.verification.value.actual == lastSeen.value && r.verification.value.checkedAt == now
      && r.verification.value.exactMatch == (r.verification.value.expected == lastSeen.value)
      && r.verification.value.expected
         == (if BackAtBaseline(r.failure.value) || r.failure.value.ApplyVerificationFailedRecoveryUnproven? then r.ident.before
             else r.ident.after)
  }

  lemma ReplayTold(current: Record, a: ApplyAnswers, now: nat)
    requires current.state.Planned? && current.ident.before != current.ident.after && a.seen.Some?
    ensures var e := ApplyReplay(current, a.seen.value.hash, now);
            ApplyTold(current, true, a, now, e.record, e.result)
            && (e.closing == [DropMaterial(current.ident.id)] <==> e.record.state.Failed? && BackAtBaseline(e.record.failure.value))
            && (e.closing != [] ==> e.closing == [DropMaterial(current.ident.id)])
  {
  }

  lemma AfterApplyTold(current: Record, a: ApplyAnswers, now: nat)
    requires current.state.Planned? && current.ident.before != current.ident.after && a.seen.Some?
    ensures var e := AfterApply(current, a, now);
            ApplyTold(current, false, a, now, e.record, e.result)
            && (e.closing == [DropMaterial(current.ident.id)] <==> e.record.state.Failed? && BackAtBaseline(e.record.failure.value))
            && (e.closing != [] ==> e.closing == [DropMaterial(current.ident.id)])
  {
  }

  /** Whatever an apply journals names what happened, its answer says the same, and the private material goes exactly when the baseline is back. */
  lemma ApplyTellsTheTruth(w: World, id: nat, key: KeyArg, dryRun: bool, a: ApplyAnswers, now: nat, r: Record)
    requires WorldInv(w) && Journals(ApplyCall(w, id, key, dryRun, a, now), r)
    ensures Loadable(w.disk, id) && a.seen.Some?
    ensures var o := ApplyCall(w, id, key, dryRun, a, now);
            && ApplyTold(Last(w.disk, id), ClaimName(id, Apply) in w.disk.claims, a, now, r, o.result)
            && (DropMaterial(id) in o.effects <==> r.state.Failed? && BackAtBaseline(r.failure.value))
  {
    hide Finish, Closing, ApplyReplay, AfterApply, ApplyTold, RecordAccepted, ClaimEffects, ApplyWrites, Follows, BackAtBaseline;
    hide ClaimsBack, ClaimsNamed, PlansNamed, PlanKeysUnique, SnapshotsBind, Budget, VaultBinds, HistoriesFine;
    var current := Last(w.disk, id);
    LastFine(w.disk, id);
    if ClaimName(id, Apply) in w.disk.claims {
      ReplayTold(current, a, now);
      ReplayFollows(current, a.seen.value.hash, now);
      var e := ApplyReplay(current, a.seen.value.hash, now);
      OnlyAppend(w.disk, [], e, r);
      OnlyDrop(w.disk, [], e, r, id);
    } else {
      AfterApplyTold(current, a, now);
      AfterApplyFollows(current, a, now);
      NoAppendSent(w.disk, key.digest, current.ident, a);
      NoDropSent(w.disk, key.digest, current.ident, a);
      var e := AfterApply(current, a, now);
      var sent := ClaimEffects(w.disk, key.digest, Apply, id) + ApplyWrites(current.ident, a);
      OnlyAppend(w.disk, sent, e, r);
      OnlyDrop(w.disk, sent, e, r, id);
    }
  }

  lemma OnlyDrop(d: Disk, sent: seq<Effect>, e: Ending, r: Record, id: nat)
    requires Append(r) in Finish(d, sent, e).effects && e.closing != [] ==> e.closing == [DropMaterial(id)]
    requires Append(r) in Finish(d, sent, e).effects && Append(r) !in sent && DropMaterial(id) !in sent
    ensures Finish(d, sent, e).result == e.result
    ensures DropMaterial(id) in Finish(d, sent, e).effects <==> e.closing == [DropMaterial(id)]
  {
    hide AppendAccepted;
  }

  lemma NoDropSent(d: Disk, key: nat, ident: Identity, a: ApplyAnswers)
    ensures var sent := ClaimEffects(d, key, Apply, ident.id) + ApplyWrites(ident, a);
            forall k :: 0 <= k < |sent| ==> !sent[k].DropMaterial?
  {
  }

  // ----- rollback: what is refused -----

  /** A usable key: what a rollback reports as standing, and what it refuses before it claims or writes anything. */
  lemma RollbackRefusals(w: World, id: nat, key: nat, a: RollbackAnswers, now: nat)
    requires WorldInv(w) && Loadable(w.disk, id) && Usable(w.disk, key, Rollback, id)
    ensures var current := Last(w.disk, id);
            var o := RollbackCall(w, id, Key(key), false, a, now);
            && (current.state.RolledBack? ==> Standing(o, current, false))
            && (!current.state.RolledBack? && a.seen.None? ==> o == Refuse(ReadFailed))
  {
    RollbackNeverFindsCorruption(w, id, Key(key), false, a, now);
    hide RollbackReplay, RollbackOnce, Finish, WorldInv, SnapshotBound;
  }

  /** The states of the target that a first rollback may act on. */
  predicate MayRollBack(r: Record, actual: Hash) {
    match r.state
    case Planned => actual == r.ident.before
    case Applied => actual == r.ident.after
    case Verified => actual == r.ident.after
    case Failed => actual == r.ident.before || actual == r.ident.after
    case RolledBack => false
  }

  /** A first rollback over any other state is stale, an applied ChangeSet whose target is back at its baseline included. */
  lemma StaleRollbackIsRefused(w: World, id: nat, key: nat, a: RollbackAnswers, now: nat)
    requires WorldInv(w) && Loadable(w.disk, id) && Free(w.disk, key, Rollback, id) && a.seen.Some?
    requires !Last(w.disk, id).state.RolledBack?
    ensures var current := Last(w.disk, id);
            var o := RollbackCall(w, id, Key(key), false, a, now);
            && (!MayRollBack(current, a.seen.value.hash) ==> o == Refuse(StaleTarget))
            && (MayRollBack(current, a.seen.value.hash) && a.seen.value.hash == current.ident.after && id !in w.vault ==>
                  o == Refuse(PlanMaterialUnavailable))
  {
    RollbackNeverFindsCorruption(w, id, Key(key), false, a, now);
    BeforeIsNotAfter(w, id);
    hide RollbackReplay, Finish, WorldInv, AfterRestore, SnapshotBound;
  }

  lemma BeforeIsNotAfter(w: World, id: nat)
    requires WorldInv(w) && Loadable(w.disk, id)
    ensures Last(w.disk, id).ident.before != Last(w.disk, id).ident.after && Last(w.disk, id).ident.id == id
  {
    LastFine(w.disk, id);
  }

  // ----- rollback: what it records and answers -----

  function RollbackFailureName(ident: Identity, claimed: bool, a: RollbackAnswers): FailureCode
    requires a.seen.Some?
  {
    if claimed then (if a.seen.value.hash == ident.after then RollbackPreviousAttemptUnchanged else RollbackAmbiguous)
    else if RollbackInDoubt(ident, claimed, a) then RollbackAmbiguous
    else if a.restored == Some(ident.after) then RollbackFailedUnchanged
    else RollbackAmbiguous
  }

  function RollbackReconciled(ident: Identity, claimed: bool, a: RollbackAnswers): Option<ReconciliationCode> {
    if claimed then Some(RollbackReplayReconciled)
    else if Restores(ident, claimed, a) && a.restore.Threw? then Some(RollbackErrorReconciled)
    else None
  }

  predicate RollbackTold(current: Record, claimed: bool, a: RollbackAnswers, now: nat, r: Record, result: Result<Success, Error>)
    requires a.seen.Some?
  {
    var ident := current.ident;
    && r.ident == ident && r.updatedAt == now
    && (if RollbackLastSeen(ident, claimed, a) == Some(ident.before) && !RollbackInDoubt(ident, claimed, a) then
          && r.state.RolledBack? && r.failure == current.failure && r.appliedHash == current.appliedHash
          && r.reconciliation == (if RollbackReconciled(ident, claimed, a).Some? then RollbackReconciled(ident, claimed, a)
                                  else current.reconciliation)
          && r.verification == Some(Verification(now, ident.before, ident.before, true))
          && result == Ok(Success(r, Restores(ident, claimed, a), false))
        else
          && r.state.Failed? && r.failure == Some(RollbackFailureName(ident, claimed, a)) && r.reconciliation == current.reconciliation
          && r.appliedHash == (if current.appliedHash.None? && claimed && r.failure.value.RollbackAmbiguous? then Some(a.seen.value.hash)
                               else current.appliedHash)
          && RestoreChecked(current, r, RollbackLastSeen(ident, claimed, a), now)
          && result == Err(ErrorOf(r.failure.value)))
  }

  predicate RestoreChecked(current: Record, r: Record, lastSeen: Option<Hash>, now: nat)
    requires r.failure.Some?
  {
    if lastSeen.None? then r.verification == current.verification
    else
      && r.verification.Some? && r.verification.value.actual == lastSeen.value && r.verification.value.checkedAt == now
      && r.verification.value.exactMatch == (r.verification.value.expected == lastSeen.value)
      && r.verification.value.expected == (if r.failure.value.RollbackAmbiguous? then r.ident.before else r.ident.after)
  }

  lemma RollbackReplayTold(current: Record, a: RollbackAnswers, now: nat)
    requires current.ident.before != current.ident.after && a.seen.Some?
    requires RollbackReplay(current, a.seen.value.hash, now).Ok?
    ensures var e := RollbackReplay(current, a.seen.value.hash, now).value;
            RollbackTold(current, true, a, now, e.record, e.result)
            && (e.closing == [DropMaterial(current.ident.id)] <==> e.record.state.RolledBack?)
            && (e.closing != [] ==> e.closing == [DropMaterial(current.ident.id)])
  {
  }

  lemma AfterRestoreTold(current: Record, a: RollbackAnswers, now: nat)
    requires current.ident.before != current.ident.after && a.seen.Some? && a.seen.value.hash == current.ident.after
    ensures var e := AfterRestore(current, a, now);
            RollbackTold(current, false, a, now, e.record, e.result)
            && (e.closing == [DropMaterial(current.ident.id)] <==> e.record.state.RolledBack?)
            && (e.closing != [] ==> e.closing == [DropMaterial(current.ident.id)])
  {
  }

  /** Whatever a rollback journals names what happened, its answer says the same, and the private material goes exactly when it is rolled back. */
  lemma RollbackTellsTheTruth(w: World, id: nat, key: KeyArg, dryRun: bool, a: RollbackAnswers, now: nat, r: Record)
    requires WorldInv(w) && Journals(RollbackCall(w, id, key, dryRun, a, now), r)
    ensures Loadable(w.disk, id) && a.seen.Some?
    ensures var o := RollbackCall(w, id, key, dryRun, a, now);
            && RollbackTold(Last(w.disk, id), ClaimName(id, Rollback) in w.disk.claims, a, now, r, o.result)
            && (DropMaterial(id) in o.effects <==> r.state.RolledBack?)
  {
    hide Finish, Closing, RollbackReplay, RollbackTold, RecordAccepted, ClaimEffects, Follows, SnapshotBound, RollbackOnce;
    hide ClaimsBack, ClaimsNamed, PlansNamed, PlanKeysUnique, SnapshotsBind, Budget, VaultBinds, HistoriesFine;
    var current := Last(w.disk, id);
    LastFine(w.disk, id);
    if ClaimName(id, Rollback) in w.disk.claims {
      var e := RollbackReplay(current, a.seen.value.hash, now).value;
      RollbackReplayTold(current, a, now);
      RollbackFollows(current, a.seen.value.hash, now);
      OnlyAppend(w.disk, [], e, r);
      OnlyDrop(w.disk, [], e, r, id);
    } else {
      RollbackOnceTold(w, current, key.digest, a, now, r);
    }
  }

  lemma RollbackOnceTold(w: World, current: Record, digest: nat, a: RollbackAnswers, now: nat, r: Record)
    requires a.seen.Some? && current.ident.before != current.ident.after && !current.state.RolledBack?
    requires Append(r) in RollbackOnce(w, current, digest, a, now).effects
    ensures var o := RollbackOnce(w, current, digest, a, now);
            && RollbackTold(current, false, a, now, r, o.result)
            && (DropMaterial(current.ident.id) in o.effects <==> r.state.RolledBack?)
  {
    hide Finish, AfterRestore, Closing, Follows, ClaimEffects;
    var ident := current.ident;
    var claimed := ClaimEffects(w.disk, digest, Rollback, ident.id);
    NoAppendInClaim(w.disk, digest, Rollback, ident.id);
    NoDropInClaim(w.disk, digest, Rollback, ident.id);
    ClosingOne(ident.id);
    if a.seen.value.hash == ident.after {
      RestoreFollows(current, a, now);
      AfterRestoreTold(current, a, now);
      var e := AfterRestore(current, a, now);
      OnlyAppend(w.disk, claimed + [Dispatch(ident.id, RollbackRestore)], e, r);
      OnlyDrop(w.disk, claimed + [Dispatch(ident.id, RollbackRestore)], e, r, ident.id);
    } else {
      var back := RolledBackRecord(current, a.seen.value.hash, None, now);
      var e := Ending(back, [DropMaterial(ident.id)], Ok(Success(back, false, false)));
      OnlyAppend(w.disk, claimed, e, r);
      OnlyDrop(w.disk, claimed, e, r, ident.id);
    }
  }

  lemma NoDropInClaim(d: Disk, key: nat, action: Action, id: nat)
    ensures forall k :: 0 <= k < |ClaimEffects(d, key, action, id)| ==> !ClaimEffects(d, key, action, id)[k].DropMaterial?
  {
  }

  /** A claimed rollback whose finding is already on record journals nothing and repeats the error of that finding. */
  lemma RepeatedFindingIsNotJournaled(w: World, id: nat, key: nat, a: RollbackAnswers, now: nat)
    requires WorldInv(w) && Loadable(w.disk, id) && Own(w.disk, key, Rollback, id) && a.seen.Some?
    requires Last(w.disk, id).state.Failed? && a.seen.value.hash != Last(w.disk, id).ident.before
    requires Last(w.disk, id).failure == Some(RollbackFailureName(Last(w.disk, id).ident, true, a))
    ensures RollbackCall(w, id, Key(key), false, a, now) == Refuse(ErrorOf(Last(w.disk, id).failure.value))
  {
    RollbackNeverFindsCorruption(w, id, Key(key), false, a, now);
    BeforeIsNotAfter(w, id);
    hide Finish, WorldInv, SnapshotBound, RollbackOnce;
  }

  /** The finding of a claimed rollback is already the last record. */
  predicate Repeated(current: Record, a: RollbackAnswers)
    requires a.seen.Some?
  {
    && current.state.Failed? && a.seen.value.hash != current.ident.before
    && current.failure == Some(RollbackFailureName(current.ident, true, a))
  }

  /** With room in the journal a rollback journals exactly when its key is usable and what it reads is new to it or may be acted on. */
  lemma RollbackJournalsExactly(w: World, id: nat, key: nat, a: RollbackAnswers, now: nat)
    requires WorldInv(w) && Room(w.disk, id, now) && Loadable(w.disk, id) && !Last(w.disk, id).state.RolledBack? && a.seen.Some?
    ensures (exists r :: Journals(RollbackCall(w, id, Key(key), false, a, now), r)) <==>
            || (Own(w.disk, key, Rollback, id) && !Repeated(Last(w.disk, id), a))
            || (Free(w.disk, key, Rollback, id) && MayRollBack(Last(w.disk, id), a.seen.value.hash)
                && (a.seen.value.hash == Last(w.disk, id).ident.after ==> id in w.vault))
  {
    var current := Last(w.disk, id);
    RollbackNeverFindsCorruption(w, id, Key(key), false, a, now);
    BeforeIsNotAfter(w, id);
    AcceptsRollback(w, id, a, now);
    hide WorldInv, Room, AppendAccepted, ClaimEffects, AfterRestore, SnapshotBound, RolledBackRecord;
    if Own(w.disk, key, Rollback, id) {
      hide RollbackOnce;
      if RollbackReplay(current, a.seen.value.hash, now).Ok? {
        JournaledBy(w.disk, [], RollbackReplay(current, a.seen.value.hash, now).value);
      }
    } else if Free(w.disk, key, Rollback, id) && MayRollBack(current, a.seen.value.hash) {
      hide RollbackReplay;
      FirstRollbackJournals(w, current, key, a, now);
    }
  }

  lemma FirstRollbackJournals(w: World, current: Record, key: nat, a: RollbackAnswers, now: nat)
    requires Loadable(w.disk, current.ident.id) && a.seen.Some? && MayRollBack(current, a.seen.value.hash)
    requires current.ident.before != current.ident.after
    requires a.seen.value.hash == current.ident.before ==>
               AppendAccepted(w.disk, RolledBackRecord(current, current.ident.before, None, now))
    requires AppendAccepted(w.disk, AfterRestore(current, a, now).record)
    requires a.seen.value.hash == current.ident.after && current.ident.id in w.vault ==>
               w.vault[current.ident.id].before == current.ident.before
    ensures a.seen.value.hash == current.ident.after && current.ident.id !in w.vault ==>
              RollbackOnce(w, current, key, a, now).effects == []
    ensures (a.seen.value.hash == current.ident.after ==> current.ident.id in w.vault) ==>
              exists r :: Journals(RollbackOnce(w, current, key, a, now), r)
  {
    hide AppendAccepted, ClaimEffects, AfterRestore, RolledBackRecord;
    var ident := current.ident;
    var claimed := ClaimEffects(w.disk, key, Rollback, ident.id);
    if a.seen.value.hash == ident.after {
      var sent := claimed + [Dispatch(ident.id, RollbackRestore)];
      JournaledBy(w.disk, sent, AfterRestore(current, a, now));
      if ident.id in w.vault {
        assert RollbackOnce(w, current, key, a, now) == Finish(w.disk, sent, AfterRestore(current, a, now));
      }
    } else {
      var back := RolledBackRecord(current, ident.before, None, now);
      var already := Ending(back, [DropMaterial(ident.id)], Ok(Success(back, false, false)));
      JournaledBy(w.disk, claimed, already);
      assert RollbackOnce(w, current, key, a, now) == Finish(w.disk, claimed, already);
    }
  }

  lemma AcceptsRollback(w: World, id: nat, a: RollbackAnswers, now: nat)
    requires WorldInv(w) && Room(w.disk, id, now) && Loadable(w.disk, id) && !Last(w.disk, id).state.RolledBack? && a.seen.Some?
    ensures var current := Last(w.disk, id);
            && AppendAccepted(w.disk, RolledBackRecord(current, current.ident.before, None, now))
            && AppendAccepted(w.disk, AfterRestore(current, a, now).record)
            && (RollbackReplay(current, a.seen.value.hash, now).Ok? ==>
                  AppendAccepted(w.disk, RollbackReplay(current, a.seen.value.hash, now).value.record))
            && (id in w.vault ==> w.vault[id].before == current.ident.before)
            && SnapshotBound(w.disk, current.ident)
  {
    RolledBackAccepted(w.disk, id, now);
    AfterRestoreAccepted(w.disk, id, a, now);
    RollbackReplayAccepted(w.disk, id, a.seen.value.hash, now);
    BoundStuff(w, id);
  }

  lemma BoundStuff(w: World, id: nat)
    requires WorldInv(w) && Loadable(w.disk, id)
    ensures SnapshotBound(w.disk, Last(w.disk, id).ident)
    ensures id in w.vault ==> MaterialMatches(w.vault[id], Last(w.disk, id).ident)
  {
    HistoryAt(w.disk, id);
    SameIdentity(w.disk.histories[id], id, |w.disk.histories[id]| - 1);
    hide HistoriesFine, HistoryFine, ClaimsBack, ClaimsNamed, PlansNamed, PlanKeysUnique, Budget, SnapshotBound, MaterialMatches;
  }

  // ----- verify -----

  /** What a verify expects: the baseline before and after the edit, the new state in between, and after a failure what it proved. */
  lemma VerifyExpects(r: Record)
    ensures r.state.Planned? || r.state.RolledBack? ==> Settles(r, r.ident.before)
    ensures r.state.Applied? || r.state.Verified? ==> Settles(r, r.ident.after)
    ensures r.state.Failed? && r.failure.Some? ==>
              && (BackAtBaseline(r.failure.value) ==> Settles(r, r.ident.before))
              && (r.failure.value.RollbackFailedUnchanged? || r.failure.value.RollbackPreviousAttemptUnchanged? ==>
                    Settles(r, r.ident.after))
              && (r.failure.value in {ApplyAmbiguous, RollbackAmbiguous, ApplyVerificationFailedRecoveryUnproven} ==>
                    forall h :: !Settles(r, h))
  {
  }

  /** An exact verify is recorded, and makes an APPLIED ChangeSet VERIFIED; any other state stays. */
  lemma ExactVerifyRecords(w: World, id: nat, s: Seen, now: nat)
    requires WorldInv(w) && Room(w.disk, id, now) && Loadable(w.disk, id) && Settles(Last(w.disk, id), s.hash)
    ensures var current := Last(w.disk, id);
            var r := current.(state := if current.state.Applied? then Verified else current.state, updatedAt := now,
                              verification := Some(Verification(now, s.hash, s.hash, true)));
            VerifyCall(w, id, Some(s), now) == Outcome([Append(r)], Ok(Success(r, false, true)))
  {
    hide ClaimsBack, ClaimsNamed, PlansNamed, PlanKeysUnique, SnapshotsBind, Budget, VaultBinds, HistoriesFine;
    VerifySucceedsExactly(w, id, Some(s), now);
    LastFine(w.disk, id);
    hide WorldInv, Settles;
    var r := VerifyRecord(Last(w.disk, id), s.hash, s.hash, now);
    assert [] + [Append(r)] + [] == [Append(r)];
  }

  /** Drift of a ChangeSet that stands at PLANNED or FAILED is recorded without changing its state, and reported. */
  lemma DriftIsRecorded(w: World, id: nat, h: Hash, s: Seen, now: nat)
    requires WorldInv(w) && Room(w.disk, id, now) && Loadable(w.disk, id)
    requires Settles(Last(w.disk, id), h) && s.hash != h && (Last(w.disk, id).state.Planned? || Last(w.disk, id).state.Failed?)
    ensures var r := Last(w.disk, id).(updatedAt := now, verification := Some(Verification(now, h, s.hash, false)));
            VerifyCall(w, id, Some(s), now) == Outcome([Append(r)], Err(VerificationFailed))
  {
    hide ClaimsBack, ClaimsNamed, PlansNamed, PlanKeysUnique, SnapshotsBind, Budget, VaultBinds, HistoriesFine;
    VerifyRefusedExactly(w, id, Some(s), now);
    LastFine(w.disk, id);
    var r := VerifyRecord(Last(w.disk, id), h, s.hash, now);
    assert [] + [Append(r)] + [] == [Append(r)];
  }

  lemma VerifyRefusals(w: World, id: nat, actual: Option<Seen>, now: nat)
    ensures id !in w.disk.histories ==> VerifyCall(w, id, actual, now) == Refuse(ChangeSetNotFound)
    ensures id in w.disk.histories && !Loadable(w.disk, id) ==> VerifyCall(w, id, actual, now) == Refuse(StateCorrupt)
    ensures Loadable(w.disk, id) && (forall h :: !Settles(Last(w.disk, id), h)) ==>
              VerifyCall(w, id, actual, now) == Refuse(AmbiguousState)
    ensures Loadable(w.disk, id) && (exists h :: Settles(Last(w.disk, id), h)) && actual.None? ==>
              VerifyCall(w, id, actual, now) == Refuse(ReadFailed)
  {
    hide Finish, VerifyRecord;
    if Loadable(w.disk, id) && ExpectedForVerification(Last(w.disk, id)).Ok? {
      assert Settles(Last(w.disk, id), ExpectedForVerification(Last(w.disk, id)).value);
    }
  }

  // ----- plan -----

  /** A plan that goes ahead records the request, the baseline it read and the state it promises, and answers with that record. */
  predicate PlanTold(p: PlanRequest, a: PlanAnswers, newId: nat, now: nat, r: Record)
    requires a.before.Some?
  {
    && r.state.Planned? && r.updatedAt == now && r.ident.createdAt == now && r.ident.id == newId && r.ident.snapshotId == newId
    && r.ident.request == p.request && r.ident.adapter == p.adapter && r.ident.target == p.target && r.ident.authority == p.authority
    && r.ident.before == a.before.value.hash && r.ident.revision == a.before.value.revision && r.ident.after == a.after
    && r.ident.details == a.details && (r.ident.planKey.Some? <==> p.key.Key?) && (p.key.Key? ==> r.ident.planKey == Some(p.key.digest))
    && r.appliedHash.None? && r.verification.None? && r.failure.None? && r.reconciliation.None?
  }

  predicate PlanProceeds(w: World, p: PlanRequest) {
    p.key.NoKey? || (p.key.Key? && FindPlan(w.disk, p.key.digest) == Ok(None))
  }

  /** Why a new plan is refused before anything is written. */
  lemma PlanRefusals(w: World, p: PlanRequest, a: PlanAnswers, newId: nat, now: nat)
    ensures p.key.MalformedKey? ==> PlanCall(w, p, a, newId, now) == Refuse(InvalidIdempotencyKey)
    ensures PlanProceeds(w, p) && a.before.None? ==> PlanCall(w, p, a, newId, now) == Refuse(ReadFailed)
    ensures PlanProceeds(w, p) && a.before.Some? && !a.planBound ==> PlanCall(w, p, a, newId, now) == Refuse(InvalidAdapterPlan)
    ensures PlanProceeds(w, p) && a.before.Some? && a.planBound && a.before.value.hash == a.after ==>
              PlanCall(w, p, a, newId, now) == Refuse(NoChanges)
  {
    hide FindPlan, AllLoadable;
  }

  /** A new plan leaves one record, its snapshot and its material, and binds its key; when the key is bound elsewhere it leaves nothing of them. */
  lemma PlanTellsTheTruth(w: World, p: PlanRequest, a: PlanAnswers, newId: nat, now: nat)
    requires WorldInv(w) && NewName(w, newId) && newId !in w.disk.littered && PlanProceeds(w, p)
    requires a.before.Some? && a.planBound && a.before.value.hash != a.after
    ensures var o := PlanCall(w, p, a, newId, now);
            var t := DoAll(w, o.effects);
            if p.key.Key? && p.key.digest in w.disk.mappings then
              && o.result == Err(IdempotencyConflict)
              && t.disk.histories == w.disk.histories && t.disk.mappings == w.disk.mappings && t.vault == w.vault
              && (AllLoadable(w.disk) ==> newId !in t.disk.snapshots)
            else
              && o.result.Ok? && o.result.value == Success(o.result.value.record, false, true)
              && PlanTold(p, a, newId, now, o.result.value.record)
              && t.disk.histories == w.disk.histories[newId := [o.result.value.record]]
              && t.disk.snapshots == w.disk.snapshots[newId := Snapshot(p.adapter, p.target, a.before.value.hash)]
              && t.vault == w.vault[newId := Material(p.request, a.before.value.hash, a.before.value.revision)]
              && t.disk.mappings == (if p.key.Key? then w.disk.mappings[p.key.digest := PlanMapping(newId)] else w.disk.mappings)
  {
    hide DoAll, FindPlan, AllLoadable, WorldInv;
    var r := PlannedRecord(p, a, newId, now);
    PlanNewSteps(w, p, a, newId, now);
    PlanStepsDo(w, r);
    PlanClosingDoes(w, r);
    assert PlanSteps(r) + [] == PlanSteps(r);
  }

  lemma PlanStepsDo(w: World, r: Record)
    ensures DoAll(w, PlanSteps(r))
         == World(w.disk.(histories := w.disk.histories[r.ident.id := [r]],
                          snapshots := w.disk.snapshots[r.ident.id := PlannedSnapshot(r)]),
                  w.vault[r.ident.id := PlannedMaterial(r)], w.dispatched)
  {
    hide DoAll;
    var a, b, c := PutMaterial(r.ident.id, PlannedMaterial(r)), WriteSnapshot(r.ident.id, PlannedSnapshot(r)), WriteFirst(r);
    assert DoAll(w, []) == w by { EmptySafe(w); }
    DoSnoc(w, [], a);
    DoSnoc(w, [a], b);
    DoSnoc(w, [a, b], c);
    assert [] + [a] == [a] && [a] + [b] == [a, b] && [a, b] + [c] == PlanSteps(r);
  }

  lemma PlanClosingDoes(w: World, r: Record)
    requires NewName(w, r.ident.id) && r.ident.id !in w.disk.littered
    ensures var t := DoAll(w, PlanSteps(r) + PlanClosing(w, r));
            var c := DoAll(w, PlanSteps(r));
            && (r.ident.planKey.None? ==> t == c)
            && (r.ident.planKey.Some? && r.ident.planKey.value !in w.disk.mappings ==>
                  t == c.(disk := c.disk.(mappings := c.disk.mappings[r.ident.planKey.value := PlanMapping(r.ident.id)])))
            && (r.ident.planKey.Some? && r.ident.planKey.value in w.disk.mappings ==>
                  t.disk.histories == w.disk.histories && t.disk.mappings == w.disk.mappings && t.vault == w.vault
                  && (AllLoadable(w.disk) ==> r.ident.id !in t.disk.snapshots))
  {
    hide DoAll, PlanSteps, AllLoadable;
    PlanStepsDo(w, r);
    var id := r.ident.id;
    var s := PlanSteps(r);
    assert s + [] == s;
    if r.ident.planKey.Some? && r.ident.planKey.value in w.disk.mappings {
      DoSnoc(w, s, RemoveChangeSet(id));
      DoSnoc(w, s + [RemoveChangeSet(id)], DropMaterial(id));
      DoSnoc(w, s + [RemoveChangeSet(id)] + [DropMaterial(id)], DiscardSnapshot(id));
      assert s + ([RemoveChangeSet(id), DropMaterial(id)] + []) == s + [RemoveChangeSet(id)] + [DropMaterial(id)];
      assert s + ([RemoveChangeSet(id), DropMaterial(id)] + [DiscardSnapshot(id)])
          == s + [RemoveChangeSet(id)] + [DropMaterial(id)] + [DiscardSnapshot(id)];
      assert w.disk.histories[id := [r]] - {id} == w.disk.histories;
      assert w.vault[id := PlannedMaterial(r)] - {id} == w.vault;
    } else if r.ident.planKey.Some? {
      DoSnoc(w, s, WriteMapping(r.ident.planKey.value, PlanMapping(id)));
    }
  }
}
