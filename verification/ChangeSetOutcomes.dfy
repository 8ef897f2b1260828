/**
 When a call writes to the remote, what it leaves in the journal, and which of
 the error branches a caller can really meet.
 */
module ChangeSetOutcomes {
  import opened Prelude
  import opened ChangeSetStore
  import opened ChangeSetCalls
  import opened ChangeSetInvariant
  import opened ChangeSetSafety

  // ----- When a write is sent -----

  /** Everything that must hold before an apply may write. */
  predicate ApplyPermitted(w: World, id: nat, key: KeyArg, dryRun: bool, a: ApplyAnswers) {
    && Loadable(w.disk, id) && !dryRun && key.Key?
    && Last(w.disk, id).state.Planned?
    && ClaimName(id, Apply) !in w.disk.claims
    && (key.digest in w.disk.mappings ==> w.disk.mappings[key.digest] == ActionMapping(Apply, id))
    && id in w.vault && MaterialMatches(w.vault[id], Last(w.disk, id).ident)
    && a.seen.Some? && a.seen.value.hash == Last(w.disk, id).ident.before
    && (Last(w.disk, id).ident.revision.Some? ==> a.seen.value.revision == Last(w.disk, id).ident.revision)
  }

  predicate RollbackPermitted(w: World, id: nat, key: KeyArg, dryRun: bool, a: RollbackAnswers) {
    && Loadable(w.disk, id) && !dryRun && key.Key?
    && !Last(w.disk, id).state.RolledBack? && !Last(w.disk, id).state.Planned?
    && ClaimName(id, Rollback) !in w.disk.claims
    && (key.digest in w.disk.mappings ==> w.disk.mappings[key.digest] == ActionMapping(Rollback, id))
    && SnapshotBound(w.disk, Last(w.disk, id).ident)
    && a.seen.Some? && a.seen.value.hash == Last(w.disk, id).ident.after
    && id in w.vault && w.vault[id].before == Last(w.disk, id).ident.before
  }

  predicate Sends(o: Outcome, id: nat, write: RemoteWrite) {
    Dispatch(id, write) in o.effects
  }

  lemma FinishSends(d: Disk, sent: seq<Effect>, e: Ending, id: nat, write: RemoteWrite)
    requires Closing(e.closing)
    ensures Sends(Finish(d, sent, e), id, write) <==> Dispatch(id, write) in sent
  {
  }

  lemma ClaimSendsNothing(d: Disk, key: nat, action: Action, id: nat, other: nat, write: RemoteWrite)
    ensures Dispatch(other, write) !in ClaimEffects(d, key, action, id)
  {
  }

  lemma ApplyOnceSends(w: World, id: nat, digest: nat, a: ApplyAnswers, now: nat, other: nat, write: RemoteWrite)
    requires Loadable(w.disk, id) && Last(w.disk, id).ident.id == id && Last(w.disk, id).state.Planned? && a.seen.Some?
    ensures var ident := Last(w.disk, id).ident;
            Sends(ApplyOnce(w.disk, Last(w.disk, id), digest, a, now), other, write) <==>
            && other == id
            && a.seen.value.hash == ident.before
            && (ident.revision.Some? ==> a.seen.value.revision == ident.revision)
            && (write.ApplyWrite? || (write.RecoveryRestore? && Recovers(ident, a)))
  {
    hide Finish, AfterApply, Sends, Closing, Follows, ClaimEffects, Loadable;
    var current := Last(w.disk, id);
    var ident := current.ident;
    AfterApplyFollows(current, a, now);
    var claimed := ClaimEffects(w.disk, digest, Apply, id);
    ClaimSendsNothing(w.disk, digest, Apply, id, other, write);
    FinishSends(w.disk, claimed + ApplyWrites(ident, a), AfterApply(current, a, now), other, write);
    RefusesSilently(StaleTarget, other, write);
    RefusesSilently(StaleRevision, other, write);
  }

  lemma RefusesSilently(e: Error, id: nat, write: RemoteWrite)
    ensures !Sends(Refuse(e), id, write)
  {
  }

  lemma SilentRecords(s: Success, id: nat, write: RemoteWrite)
    ensures !Sends(Outcome([], Ok(s)), id, write)
  {
  }

  /**
   An apply call writes exactly when it is permitted, only to its own target, and
   sends the recovery restore exactly when the write was acknowledged with a wrong state.
   */
  lemma ApplySendsExactly(w: World, id: nat, key: KeyArg, dryRun: bool, a: ApplyAnswers, now: nat,
                          other: nat, write: RemoteWrite)
    requires WorldInv(w)
    ensures Sends(ApplyCall(w, id, key, dryRun, a, now), other, write) <==>
            && other == id && ApplyPermitted(w, id, key, dryRun, a)
            && (write.ApplyWrite? || (write.RecoveryRestore? && Recovers(Last(w.disk, id).ident, a)))
  {
    hide Finish, ApplyReplay, ApplyOnce, Sends, Closing, Follows, RecordAccepted, Recovers;
    hide ClaimsBack, ClaimsNamed, PlansNamed, PlanKeysUnique, SnapshotsBind, Budget, VaultBinds, HistoriesFine;
    forall e ensures !Sends(Refuse(e), other, write) { RefusesSilently(e, other, write); }
    forall s ensures !Sends(Outcome([], Ok(s)), other, write) { SilentRecords(s, other, write); }
    if Loadable(w.disk, id) {
      var current := Last(w.disk, id);
      LastFine(w.disk, id);
      if a.seen.Some? && current.state.Planned? && key.Key? {
        ReplayFollows(current, a.seen.value.hash, now);
        FinishSends(w.disk, [], ApplyReplay(current, a.seen.value.hash, now), other, write);
        ApplyOnceSends(w, id, key.digest, a, now, other, write);
      }
    }
  }

  /** A rollback call writes exactly when it is permitted, once, and only to its own target. */
  lemma RollbackSendsExactly(w: World, id: nat, key: KeyArg, dryRun: bool, a: RollbackAnswers, now: nat,
                             other: nat, write: RemoteWrite)
    requires WorldInv(w)
    ensures Sends(RollbackCall(w, id, key, dryRun, a, now), other, write) <==>
            other == id && write.RollbackRestore? && RollbackPermitted(w, id, key, dryRun, a)
  {
    hide Finish, RollbackReplay, RollbackOnce, Sends, Closing, Follows, RecordAccepted, SnapshotBound;
    hide ClaimsBack, ClaimsNamed, PlansNamed, PlanKeysUnique, SnapshotsBind, Budget, VaultBinds, HistoriesFine;
    forall e ensures !Sends(Refuse(e), other, write) { RefusesSilently(e, other, write); }
    forall s ensures !Sends(Outcome([], Ok(s)), other, write) { SilentRecords(s, other, write); }
    if Loadable(w.disk, id) {
      var current := Last(w.disk, id);
      LastFine(w.disk, id);
      if a.seen.Some? && key.Key? {
        var replay := RollbackReplay(current, a.seen.value.hash, now);
        RollbackFollows(current, a.seen.value.hash, now);
        if replay.Ok? { FinishSends(w.disk, [], replay.value, other, write); }
        RollbackOnceSends(w, id, key.digest, a, now, other, write);
      }
    }
  }

  lemma RollbackOnceSends(w: World, id: nat, digest: nat, a: RollbackAnswers, now: nat, other: nat, write: RemoteWrite)
    requires Loadable(w.disk, id) && Last(w.disk, id).ident.id == id && a.seen.Some?
    requires Last(w.disk, id).ident.before != Last(w.disk, id).ident.after
    ensures var current := Last(w.disk, id);
            Sends(RollbackOnce(w, current, digest, a, now), other, write) <==>
            && other == id && write.RollbackRestore?
            && !current.state.Planned?
            && a.seen.value.hash == current.ident.after
            && id in w.vault && w.vault[id].before == current.ident.before
  {
    hide Finish, AfterRestore, Sends, Closing, Follows, ClaimEffects, Loadable;
    var current := Last(w.disk, id);
    var claimed := ClaimEffects(w.disk, digest, Rollback, id);
    forall e ensures !Sends(Refuse(e), other, write) { RefusesSilently(e, other, write); }
    RestoreFollows(current, a, now);
    ClaimSendsNothing(w.disk, digest, Rollback, id, other, write);
    var r := RolledBackRecord(current, a.seen.value.hash, None, now);
    var already := Ending(r, [DropMaterial(id)], Ok(Success(r, false, false)));
    assert Closing(already.closing) by { ClosingOne(id); }
    FinishSends(w.disk, claimed, already, other, write);
    FinishSends(w.disk, claimed + [Dispatch(id, RollbackRestore)], AfterRestore(current, a, now), other, write);
  }

  lemma ClosingOne(id: nat)
    ensures Closing([DropMaterial(id)])
  {
  }

  lemma PlanAndVerifyNeverSend(w: World, p: PlanRequest, pa: PlanAnswers, newId: nat, id: nat, actual: Option<Seen>,
                               now: nat, other: nat, write: RemoteWrite)
    ensures !Sends(PlanCall(w, p, pa, newId, now), other, write)
    ensures !Sends(VerifyCall(w, id, actual, now), other, write)
  {
    hide FindPlan, AppendAccepted, ExpectedForVerification, VerifyRecord, AllLoadable;
  }

  // ----- The journal takes every outcome -----

  /** The clock has not gone back and the journal of the ChangeSet is not full. */
  predicate Room(d: Disk, id: nat, now: nat) {
    Loadable(d, id) ==> Last(d, id).updatedAt <= now && |d.histories[id]| < MAX_EVENTS
  }

  lemma ReplayAccepted(d: Disk, id: nat, actual: Hash, now: nat)
    requires HistoriesFine(d) && Loadable(d, id) && Room(d, id, now) && Last(d, id).state.Planned?
    ensures AppendAccepted(d, ApplyReplay(Last(d, id), actual, now).record)
  {
    LastFine(d, id);
    hide HistoriesFine;
  }

  lemma AfterApplyAccepted(d: Disk, id: nat, a: ApplyAnswers, now: nat)
    requires HistoriesFine(d) && Loadable(d, id) && Room(d, id, now) && Last(d, id).state.Planned?
    ensures AppendAccepted(d, AfterApply(Last(d, id), a, now).record)
  {
    LastFine(d, id);
    hide HistoriesFine;
  }

  lemma RollbackReplayAccepted(d: Disk, id: nat, actual: Hash, now: nat)
    requires HistoriesFine(d) && Loadable(d, id) && Room(d, id, now) && !Last(d, id).state.RolledBack?
    ensures var e := RollbackReplay(Last(d, id), actual, now);
            e.Ok? ==> AppendAccepted(d, e.value.record)
  {
    LastFine(d, id);
    hide HistoriesFine;
  }

  lemma RolledBackAccepted(d: Disk, id: nat, now: nat)
    requires HistoriesFine(d) && Loadable(d, id) && Room(d, id, now) && !Last(d, id).state.RolledBack?
    ensures AppendAccepted(d, RolledBackRecord(Last(d, id), Last(d, id).ident.before, None, now))
  {
    LastFine(d, id);
    hide HistoriesFine;
  }

  lemma AfterRestoreAccepted(d: Disk, id: nat, a: RollbackAnswers, now: nat)
    requires HistoriesFine(d) && Loadable(d, id) && Room(d, id, now) && !Last(d, id).state.RolledBack?
    ensures AppendAccepted(d, AfterRestore(Last(d, id), a, now).record)
  {
    LastFine(d, id);
    hide HistoriesFine;
  }

  /** Every write sent in the list is followed by the record of an outcome for the same ChangeSet. */
  ghost predicate Journaled(es: seq<Effect>) {
    forall k :: 0 <= k < |es| && es[k].Dispatch? ==>
                  exists j :: k < j < |es| && es[j].Append? && es[j].record.ident.id == es[k].id
                              && !es[j].record.state.Planned?
  }

  lemma FinishJournals(d: Disk, sent: seq<Effect>, e: Ending)
    requires AppendAccepted(d, e.record) && !e.record.state.Planned? && Closing(e.closing)
    requires forall k :: 0 <= k < |sent| && sent[k].Dispatch? ==> sent[k].id == e.record.ident.id
    ensures Finish(d, sent, e).result == e.result
    ensures Journaled(Finish(d, sent, e).effects)
  {
    hide AppendAccepted;
    var es := sent + [Append(e.record)] + e.closing;
    forall k | 0 <= k < |es| && es[k].Dispatch?
      ensures k < |sent| && es[|sent|].Append? && es[|sent|].record.ident.id == es[k].id
    {
    }
  }

  predicate Refused(o: Outcome) {
    o.result == Err(AppendRefused)
  }

  lemma NothingIsJournaled()
    ensures Journaled([])
  {
  }

  /** With a monotone clock, an apply is never refused its record: every write it sends gets a journaled outcome. */
  lemma ApplyJournals(w: World, id: nat, key: KeyArg, dryRun: bool, a: ApplyAnswers, now: nat)
    requires WorldInv(w) && Room(w.disk, id, now)
    ensures !Refused(ApplyCall(w, id, key, dryRun, a, now))
    ensures Journaled(ApplyCall(w, id, key, dryRun, a, now).effects)
  {
    hide Finish, ApplyReplay, ApplyOnce, Journaled, Closing, Follows, RecordAccepted, Room;
    hide ClaimsBack, ClaimsNamed, PlansNamed, PlanKeysUnique, SnapshotsBind, Budget, VaultBinds, HistoriesFine;
    NothingIsJournaled();
    if Loadable(w.disk, id) {
      var current := Last(w.disk, id);
      LastFine(w.disk, id);
      if a.seen.Some? && current.state.Planned? && key.Key? {
        ReplayFollows(current, a.seen.value.hash, now);
        ReplayAccepted(w.disk, id, a.seen.value.hash, now);
        ReplayResults(current, a.seen.value.hash, now);
        FinishJournals(w.disk, [], ApplyReplay(current, a.seen.value.hash, now));
        ApplyOnceJournals(w, id, key.digest, a, now);
      }
    }
  }

  lemma ReplayResults(current: Record, actual: Hash, now: nat)
    ensures ApplyReplay(current, actual, now).result != Err(AppendRefused)
  {
  }

  lemma AfterApplyResults(current: Record, a: ApplyAnswers, now: nat)
    ensures AfterApply(current, a, now).result != Err(AppendRefused)
  {
  }

  lemma ApplyOnceJournals(w: World, id: nat, digest: nat, a: ApplyAnswers, now: nat)
    requires HistoriesFine(w.disk) && Loadable(w.disk, id) && Room(w.disk, id, now)
    requires Last(w.disk, id).state.Planned? && a.seen.Some?
    ensures !Refused(ApplyOnce(w.disk, Last(w.disk, id), digest, a, now))
    ensures Journaled(ApplyOnce(w.disk, Last(w.disk, id), digest, a, now).effects)
  {
    hide Finish, AfterApply, Journaled, Closing, Room, RecordAccepted, HistoriesFine, Loadable;
    var current := Last(w.disk, id);
    LastFine(w.disk, id);
    NothingIsJournaled();
    AfterApplyFollows(current, a, now);
    AfterApplyAccepted(w.disk, id, a, now);
    AfterApplyResults(current, a, now);
    FinishJournals(w.disk, ClaimEffects(w.disk, digest, Apply, id) + ApplyWrites(current.ident, a),
                   AfterApply(current, a, now));
  }

  lemma RollbackResults(current: Record, actual: Hash, a: RollbackAnswers, now: nat)
    ensures AfterRestore(current, a, now).result != Err(AppendRefused)
    ensures var e := RollbackReplay(current, actual, now);
            if e.Ok? then e.value.result != Err(AppendRefused) else e.error != AppendRefused
  {
  }

  /** The same for rollback. */
  lemma RollbackJournals(w: World, id: nat, key: KeyArg, dryRun: bool, a: RollbackAnswers, now: nat)
    requires WorldInv(w) && Room(w.disk, id, now)
    ensures !Refused(RollbackCall(w, id, key, dryRun, a, now))
    ensures Journaled(RollbackCall(w, id, key, dryRun, a, now).effects)
  {
    hide Finish, RollbackReplay, RollbackOnce, Journaled, Closing, Follows, RecordAccepted, Room, SnapshotBound;
    hide ClaimsBack, ClaimsNamed, PlansNamed, PlanKeysUnique, SnapshotsBind, Budget, VaultBinds, HistoriesFine;
    NothingIsJournaled();
    if Loadable(w.disk, id) {
      var current := Last(w.disk, id);
      LastFine(w.disk, id);
      if a.seen.Some? && !current.state.RolledBack? && key.Key? {
        var replay := RollbackReplay(current, a.seen.value.hash, now);
        RollbackFollows(current, a.seen.value.hash, now);
        RollbackReplayAccepted(w.disk, id, a.seen.value.hash, now);
        RollbackResults(current, a.seen.value.hash, a, now);
        if replay.Ok? { FinishJournals(w.disk, [], replay.value); }
        RollbackOnceJournals(w, id, key.digest, a, now);
      }
    }
  }

  lemma RollbackOnceJournals(w: World, id: nat, digest: nat, a: RollbackAnswers, now: nat)
    requires HistoriesFine(w.disk) && Loadable(w.disk, id) && Room(w.disk, id, now)
    requires !Last(w.disk, id).state.RolledBack? && a.seen.Some?
    ensures !Refused(RollbackOnce(w, Last(w.disk, id), digest, a, now))
    ensures Journaled(RollbackOnce(w, Last(w.disk, id), digest, a, now).effects)
  {
    hide Finish, AfterRestore, Journaled, Room, RecordAccepted, HistoriesFine, Loadable;
    var current := Last(w.disk, id);
    LastFine(w.disk, id);
    NothingIsJournaled();
    RestoreFollows(current, a, now);
    AfterRestoreAccepted(w.disk, id, a, now);
    RollbackResults(current, 0, a, now);
    var claimed := ClaimEffects(w.disk, digest, Rollback, id);
    FinishJournals(w.disk, claimed + [Dispatch(id, RollbackRestore)], AfterRestore(current, a, now));
    if a.seen.value.hash == current.ident.before {
      RolledBackAccepted(w.disk, id, now);
      var r := RolledBackRecord(current, a.seen.value.hash, None, now);
      FinishJournals(w.disk, claimed, Ending(r, [DropMaterial(id)], Ok(Success(r, false, false))));
    }
  }

  /**
   Verification keeps no record of drift once the ChangeSet was applied or rolled back:
   the append is refused exactly then, and nothing is written.
   */
  lemma VerifyRefusedExactly(w: World, id: nat, actual: Option<Seen>, now: nat)
    requires WorldInv(w) && Room(w.disk, id, now)
    ensures Refused(VerifyCall(w, id, actual, now)) <==>
            && Loadable(w.disk, id) && actual.Some?
            && (Last(w.disk, id).state.Applied? || Last(w.disk, id).state.Verified? || Last(w.disk, id).state.RolledBack?)
            && ExpectedForVerification(Last(w.disk, id)) != Ok(actual.value.hash)
    ensures Refused(VerifyCall(w, id, actual, now)) ==> VerifyCall(w, id, actual, now).effects == []
  {
    hide ClaimsBack, ClaimsNamed, PlansNamed, PlanKeysUnique, SnapshotsBind, Budget, VaultBinds, HistoriesFine;
    if Loadable(w.disk, id) {
      LastFine(w.disk, id);
    }
  }

  // ----- Branches nobody reaches -----

  /** An applied ChangeSet always has its claim, and private material always matches its journal. */
  lemma ApplyNeverFindsCorruption(w: World, id: nat, key: KeyArg, dryRun: bool, a: ApplyAnswers, now: nat)
    requires WorldInv(w)
    ensures ApplyCall(w, id, key, dryRun, a, now).result != Err(AppliedWithoutClaim)
    ensures ApplyCall(w, id, key, dryRun, a, now).result != Err(PlanMaterialMismatch)
  {
    hide Finish, ApplyReplay, RecordAccepted, TransitionAccepted;
    hide ClaimsNamed, PlansNamed, PlanKeysUnique, SnapshotsBind, Budget, HistoriesFine, AfterApply;
    if Loadable(w.disk, id) {
      var h := w.disk.histories[id];
      LastFine(w.disk, id);
      LastBacked(w.disk, id);
      assert HistoryFine(h, id) by { HistoryAt(w.disk, id); }
      SameIdentity(h, id, |h| - 1);
      if a.seen.Some? {
        ReplayErrors(Last(w.disk, id), a.seen.value.hash, now);
        FinishErrors(w.disk, [], ApplyReplay(Last(w.disk, id), a.seen.value.hash, now));
        if key.Key? { ApplyOnceErrors(w.disk, Last(w.disk, id), key.digest, a, now); }
      }
    }
  }

  lemma HistoryAt(d: Disk, id: nat)
    requires HistoriesFine(d) && id in d.histories
    ensures HistoryFine(d.histories[id], id)
  {
    hide HistoryFine;
  }

  predicate Ordinary(r: Result<Success, Error>) {
    r.Err? ==> !r.error.AppliedWithoutClaim? && !r.error.PlanMaterialMismatch?
               && !r.error.RolledBackWithoutClaim? && !r.error.SnapshotMismatch?
  }

  lemma FinishErrors(d: Disk, sent: seq<Effect>, e: Ending)
    requires Ordinary(e.result)
    ensures Ordinary(Finish(d, sent, e).result)
  {
  }

  lemma ReplayErrors(current: Record, actual: Hash, now: nat)
    ensures Ordinary(ApplyReplay(current, actual, now).result)
  {
  }

  lemma ApplyOnceErrors(d: Disk, current: Record, digest: nat, a: ApplyAnswers, now: nat)
    requires a.seen.Some?
    ensures Ordinary(ApplyOnce(d, current, digest, a, now).result)
  {
    hide AppendAccepted, ClaimEffects, FailedRecord, AppliedRecord;
  }

  lemma RollbackErrors(current: Record, actual: Hash, a: RollbackAnswers, now: nat)
    ensures Ordinary(AfterRestore(current, a, now).result)
    ensures var e := RollbackReplay(current, actual, now);
            if e.Ok? then Ordinary(e.value.result) else Ordinary(Err(e.error))
  {
  }

  /** A rolled-back ChangeSet always has its claim, and snapshots always match their ChangeSet. */
  lemma RollbackNeverFindsCorruption(w: World, id: nat, key: KeyArg, dryRun: bool, a: RollbackAnswers, now: nat)
    requires WorldInv(w)
    ensures RollbackCall(w, id, key, dryRun, a, now).result != Err(RolledBackWithoutClaim)
    ensures RollbackCall(w, id, key, dryRun, a, now).result != Err(SnapshotMismatch)
  {
    hide Finish, RollbackReplay, RollbackOnce, RecordAccepted, TransitionAccepted, SnapshotBound;
    hide ClaimsNamed, PlansNamed, PlanKeysUnique, Budget, HistoriesFine;
    if Loadable(w.disk, id) {
      var h := w.disk.histories[id];
      LastFine(w.disk, id);
      LastBacked(w.disk, id);
      HistoryAt(w.disk, id);
      SameIdentity(h, id, |h| - 1);
      assert SnapshotBound(w.disk, h[0].ident);
      if a.seen.Some? && key.Key? {
        var replay := RollbackReplay(Last(w.disk, id), a.seen.value.hash, now);
        RollbackErrors(Last(w.disk, id), a.seen.value.hash, a, now);
        if replay.Ok? { FinishErrors(w.disk, [], replay.value); }
        RollbackOnceErrors(w, id, key.digest, a, now);
      }
    }
  }

  lemma RollbackOnceErrors(w: World, id: nat, digest: nat, a: RollbackAnswers, now: nat)
    requires Loadable(w.disk, id) && a.seen.Some? && Last(w.disk, id).ident.id == id
    requires id in w.vault ==> w.vault[id].before == Last(w.disk, id).ident.before
    ensures Ordinary(RollbackOnce(w, Last(w.disk, id), digest, a, now).result)
  {
    hide AfterRestore, AppendAccepted, ClaimEffects, RolledBackRecord, Loadable;
    RollbackErrors(Last(w.disk, id), 0, a, now);
  }

  // ----- Restart -----

  /** After a restart the private material is gone: a claimed apply can no longer be reconciled, and writes nothing. */
  lemma ApplyReplayNeedsVault(w: World, id: nat, key: KeyArg, a: ApplyAnswers, now: nat)
    requires Loadable(w.disk, id) && Last(w.disk, id).state.Planned? && id !in w.vault && key.Key?
    requires AttemptStatus(w.disk, key.digest, Apply, id).Ok?
    ensures ApplyCall(w, id, key, false, a, now) == Refuse(PlanMaterialUnavailable)
  {
  }

  /** A claimed rollback is reconciled the same way in every process. */
  lemma RollbackReplayIgnoresVault(w: World, vault: Vault, id: nat, key: KeyArg, dryRun: bool, a: RollbackAnswers, now: nat)
    requires ClaimName(id, Rollback) in w.disk.claims
    ensures RollbackCall(w.(vault := vault), id, key, dryRun, a, now) == RollbackCall(w, id, key, dryRun, a, now)
  {
    hide Finish, RollbackReplay, RollbackOnce;
  }

  // ----- What is returned is what is journaled -----

  predicate LastIs(d: Disk, id: nat, r: Record) {
    id in d.histories && d.histories[id] != [] && d.histories[id][|d.histories[id]| - 1] == r
  }

  lemma FinishWrites(w: World, sent: seq<Effect>, e: Ending)
    requires Loadable(w.disk, e.record.ident.id) && Closing(e.closing)
    requires DoAll(w, sent).disk.histories == w.disk.histories
    requires e.result.Ok? ==> e.result.value.record == e.record
    ensures var o := Finish(w.disk, sent, e);
            o.result.Ok? ==> LastIs(DoAll(w, o.effects).disk, e.record.ident.id, o.result.value.record)
  {
    hide AppendAccepted, DoAll;
    DoSnoc(w, sent, Append(e.record));
    var done := sent + [Append(e.record)];
    if e.closing == [] {
      assert done + e.closing == done;
    } else {
      assert done + e.closing == done + [e.closing[0]];
      DoSnoc(w, done, e.closing[0]);
    }
  }

  /** Where the journal of a ChangeSet stands after a call. */
  predicate Returns(w: World, o: Outcome, id: nat) {
    o.result.Ok? ==> LastIs(DoAll(w, o.effects).disk, id, o.result.value.record)
  }

  lemma AppendReturns(w: World, id: nat, e: Ending)
    requires Loadable(w.disk, id) && e.record.ident.id == id && Closing(e.closing)
    requires e.result.Ok? ==> e.result.value.record == e.record
    ensures Returns(w, Finish(w.disk, [], e), id)
  {
    hide DoAll, Finish, Closing, Loadable, LastIs;
    EmptySafe(w);
    FinishWrites(w, [], e);
  }

  lemma StandingReturns(w: World, id: nat, dryRun: bool)
    requires Loadable(w.disk, id)
    ensures Returns(w, Outcome([], Ok(Success(Last(w.disk, id), false, dryRun))), id)
  {
  }

  lemma RefusalReturns(w: World, id: nat, e: Error)
    ensures Returns(w, Refuse(e), id)
  {
  }

  lemma ApplyOnceReturns(w: World, id: nat, digest: nat, a: ApplyAnswers, now: nat)
    requires WorldInv(w) && Loadable(w.disk, id) && a.seen.Some? && Last(w.disk, id).state.Planned?
    requires AttemptStatus(w.disk, digest, Apply, id) == Ok(Unclaimed)
    ensures Returns(w, ApplyOnce(w.disk, Last(w.disk, id), digest, a, now), id)
  {
    hide DoAll, Safe, Finish, Closing, Loadable, LastIs, AfterApply, ClaimEffects, ApplyWrites, AttemptStatus, Follows;
    hide ClaimsBack, ClaimsNamed, PlansNamed, PlanKeysUnique, SnapshotsBind, Budget, VaultBinds, HistoriesFine;
    var current := Last(w.disk, id);
    LastFine(w.disk, id);
    AfterApplyFollows(current, a, now);
    AfterApplyRecord(current, a, now);
    assert id in w.disk.histories by { LoadableIsThere(w.disk, id); }
    ApplySentSafe(w, digest, current.ident, a);
    FinishWrites(w, ClaimEffects(w.disk, digest, Apply, id) + ApplyWrites(current.ident, a), AfterApply(current, a, now));
  }

  lemma LoadableIsThere(d: Disk, id: nat)
    requires Loadable(d, id)
    ensures id in d.histories
  {
  }

  lemma AfterApplyRecord(current: Record, a: ApplyAnswers, now: nat)
    ensures var e := AfterApply(current, a, now);
            e.record.ident == current.ident && (e.result.Ok? ==> e.result.value.record == e.record && e.record.state.Applied?)
  {
  }

  lemma ReplayRecord(current: Record, actual: Hash, now: nat)
    ensures var e := ApplyReplay(current, actual, now);
            e.record.ident == current.ident && (e.result.Ok? ==> e.result.value.record == e.record && e.record.state.Applied?)
  {
  }

  /** Whatever record a successful apply returns is the last one in the journal when the call ends. */
  lemma ApplyReturnsJournal(w: World, id: nat, key: KeyArg, dryRun: bool, a: ApplyAnswers, now: nat)
    requires WorldInv(w)
    ensures Returns(w, ApplyCall(w, id, key, dryRun, a, now), id)
  {
    hide DoAll, Finish, Closing, LastIs, ApplyReplay, ApplyOnce, Returns, RecordAccepted;
    hide ClaimsBack, ClaimsNamed, PlansNamed, PlanKeysUnique, SnapshotsBind, Budget, VaultBinds, HistoriesFine;
    forall e ensures Returns(w, Refuse(e), id) { RefusalReturns(w, id, e); }
    if Loadable(w.disk, id) {
      var current := Last(w.disk, id);
      LastFine(w.disk, id);
      StandingReturns(w, id, false);
      StandingReturns(w, id, true);
      if key.Key? && a.seen.Some? && current.state.Planned? {
        ReplayFollows(current, a.seen.value.hash, now);
        ReplayRecord(current, a.seen.value.hash, now);
        AppendReturns(w, id, ApplyReplay(current, a.seen.value.hash, now));
        if AttemptStatus(w.disk, key.digest, Apply, id) == Ok(Unclaimed) {
          ApplyOnceReturns(w, id, key.digest, a, now);
        }
      }
    }
  }

  lemma RollbackRecords(current: Record, actual: Hash, a: RollbackAnswers, now: nat)
    ensures var e := AfterRestore(current, a, now);
            e.record.ident == current.ident && (e.result.Ok? ==> e.result.value.record == e.record && e.record.state.RolledBack?)
    ensures var e := RollbackReplay(current, actual, now);
            e.Ok? ==> e.value.record.ident == current.ident
                      && (e.value.result.Ok? ==> e.value.result.value.record == e.value.record && e.value.record.state.RolledBack?)
  {
  }

  lemma RollbackOnceReturns(w: World, id: nat, digest: nat, a: RollbackAnswers, now: nat)
    requires WorldInv(w) && Loadable(w.disk, id) && a.seen.Some?
    requires AttemptStatus(w.disk, digest, Rollback, id) == Ok(Unclaimed)
    ensures Returns(w, RollbackOnce(w, Last(w.disk, id), digest, a, now), id)
  {
    hide DoAll, Safe, Finish, Loadable, LastIs, AfterRestore, ClaimEffects, AttemptStatus, Returns, RecordAccepted, Closing;
    hide ClaimsBack, ClaimsNamed, PlansNamed, PlanKeysUnique, SnapshotsBind, Budget, VaultBinds, HistoriesFine;
    forall e ensures Returns(w, Refuse(e), id) { RefusalReturns(w, id, e); }
    var current := Last(w.disk, id);
    var claimed := ClaimEffects(w.disk, digest, Rollback, id);
    LastFine(w.disk, id);
    LoadableIsThere(w.disk, id);
    RestoreFollows(current, a, now);
    RollbackRecords(current, 0, a, now);
    ClaimSafe(w, digest, Rollback, id);
    ClosingOne(id);
    var r := RolledBackRecord(current, a.seen.value.hash, None, now);
    var already := Ending(r, [DropMaterial(id)], Ok(Success(r, false, false)));
    FinishWrites(w, claimed, already);
    ReturnsIs(w, Finish(w.disk, claimed, already), id);
    ClaimAndSend(w, digest, id, RollbackRestore);
    FinishWrites(w, claimed + [Dispatch(id, RollbackRestore)], AfterRestore(current, a, now));
    ReturnsIs(w, Finish(w.disk, claimed + [Dispatch(id, RollbackRestore)], AfterRestore(current, a, now)), id);
  }

  lemma ReturnsIs(w: World, o: Outcome, id: nat)
    requires o.result.Ok? ==> LastIs(DoAll(w, o.effects).disk, id, o.result.value.record)
    ensures Returns(w, o, id)
  {
  }

  /** The same for rollback. */
  lemma RollbackReturnsJournal(w: World, id: nat, key: KeyArg, dryRun: bool, a: RollbackAnswers, now: nat)
    requires WorldInv(w)
    ensures Returns(w, RollbackCall(w, id, key, dryRun, a, now), id)
  {
    hide DoAll, Finish, Closing, LastIs, RollbackReplay, RollbackOnce, Returns, RecordAccepted, SnapshotBound;
    hide ClaimsBack, ClaimsNamed, PlansNamed, PlanKeysUnique, SnapshotsBind, Budget, VaultBinds, HistoriesFine;
    forall e ensures Returns(w, Refuse(e), id) { RefusalReturns(w, id, e); }
    if Loadable(w.disk, id) {
      var current := Last(w.disk, id);
      LastFine(w.disk, id);
      StandingReturns(w, id, false);
      StandingReturns(w, id, true);
      if key.Key? && a.seen.Some? {
        var replay := RollbackReplay(current, a.seen.value.hash, now);
        RollbackFollows(current, a.seen.value.hash, now);
        RollbackRecords(current, a.seen.value.hash, a, now);
        if replay.Ok? { AppendReturns(w, id, replay.value); }
        if AttemptStatus(w.disk, key.digest, Rollback, id) == Ok(Unclaimed) {
          RollbackOnceReturns(w, id, key.digest, a, now);
        }
      }
    }
  }

  // ----- Planning under a key -----

  /** A key lookup fails only when a journal it must read is torn; it never finds two plans or a wrong one. */
  lemma FindPlanFailsExactly(d: Disk, key: nat)
    requires DiskInv(d)
    ensures FindPlan(d, key).Err? <==>
            if key in d.mappings then d.mappings[key].PlanMapping? && !Loadable(d, d.mappings[key].id)
            else !AllLoadable(d)
  {
    hide ClaimsBack, ClaimsNamed, SnapshotsBind, HistoriesFine, HistoryFine, RecordAccepted;
    if key in d.mappings {
      if d.mappings[key].PlanMapping? && Loadable(d, d.mappings[key].id) {
        CarriedIsNamed(d, key, d.mappings[key].id);
      }
    } else if AllLoadable(d) {
      forall a, b | a in d.histories && b in d.histories && NamedBy(d, a, key) && NamedBy(d, b, key)
        ensures a == b
      {
        NamedIsCarried(d, key, a);
        NamedIsCarried(d, key, b);
      }
    }
  }

  lemma NamedIsCarried(d: Disk, key: nat, id: nat)
    requires HistoriesFine(d) && NamedBy(d, id, key)
    ensures HasPlanKey(d, id, key)
  {
    hide RecordAccepted;
    HistoryAt(d, id);
    SameIdentity(d.histories[id], id, |d.histories[id]| - 1);
  }

  /** A plan made under a key is found again by the same request, and by no other. */
  lemma PlanIsIdempotent(w: World, p: PlanRequest, a: PlanAnswers, newId: nat, now: nat,
                         again: PlanRequest, b: PlanAnswers, otherId: nat, later: nat)
    requires WorldInv(w) && NewName(w, newId) && newId !in w.disk.littered && p.key.Key? && again.key == p.key
    requires PlanCall(w, p, a, newId, now).result.Ok? && PlanCall(w, p, a, newId, now).effects != []
    ensures PlanCall(DoAll(w, PlanCall(w, p, a, newId, now).effects), again, b, otherId, later)
         == (if again.request == p.request && again.authority == p.authority
             then Outcome([], Ok(Success(PlanCall(w, p, a, newId, now).result.value.record, false, true)))
             else Refuse(IdempotencyConflict))
  {
    hide DoAll, Safe, AllLoadable, FindPlan, EffectSafe;
    hide ClaimsBack, ClaimsNamed, PlansNamed, PlanKeysUnique, SnapshotsBind, Budget, VaultBinds, HistoriesFine;
    var r := PlannedRecord(p, a, newId, now);
    forall id | p.key.digest !in w.disk.mappings && FindPlan(w.disk, p.key.digest) == Ok(None)
      ensures !HasPlanKey(w.disk, id, p.key.digest)
    {
      UnnamedIsUncarried(w.disk, p.key.digest, id);
    }
    PlanStepsSafe(w, r);
    PlanNewSteps(w, p, a, newId, now);
    var naming := WriteMapping(p.key.digest, PlanMapping(newId));
    DoSnoc(w, PlanSteps(r), naming);
    FoundAgain(DoAll(w, PlanSteps(r) + [naming]).disk, p.key.digest, r);
  }

  lemma FoundAgain(d: Disk, key: nat, r: Record)
    requires key in d.mappings && d.mappings[key] == PlanMapping(r.ident.id) && r.ident.planKey == Some(key)
    requires r.ident.id in d.histories && d.histories[r.ident.id] == [r] && r.ident.id !in d.littered
    ensures FindPlan(d, key) == Ok(Some(r))
  {
    hide AllLoadable;
  }
}
