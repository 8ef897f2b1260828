/** What a journaled outcome says about the target is exactly what the call last saw there. */
module ChangeSetVerdicts {
  import opened Prelude
  import opened ChangeSetStore
  import opened ChangeSetCalls
  import opened ChangeSetInvariant
  import opened ChangeSetSafety
  import opened ChangeSetOutcomes

  /** A record is settled on a state when a later verify will compare the target with that state. */
  predicate Settles(r: Record, h: Hash) {
    ExpectedForVerification(r) == Ok(h)
  }

  // ----- apply -----

  /** The last state that an apply call was shown. */
  function ApplyLastSeen(ident: Identity, claimed: bool, a: ApplyAnswers): Option<Hash>
    requires a.seen.Some?
  {
    if claimed then Some(a.seen.value.hash)
    else if a.write.Threw? then a.diagnostic
    else if Recovers(ident, a) then a.recovered
    else Some(a.write.hash)
  }

  /** An unstable write stays in doubt whatever is seen, and so does a recovery that left the new state. */
  predicate ApplyInDoubt(ident: Identity, claimed: bool, a: ApplyAnswers) {
    && !claimed
    && (if a.write.Threw? then a.write.unstable else Recovers(ident, a) && a.recovered == Some(ident.after))
  }

  lemma ReplayVerdict(current: Record, actual: Hash, now: nat, h: Hash)
    requires current.ident.before != current.ident.after
    ensures Settles(ApplyReplay(current, actual, now).record, h)
       <==> h == actual && h in {current.ident.before, current.ident.after}
  {
  }

  lemma AfterApplyVerdict(current: Record, a: ApplyAnswers, now: nat, h: Hash)
    requires current.ident.before != current.ident.after && a.seen.Some?
    ensures Settles(AfterApply(current, a, now).record, h)
       <==> && ApplyLastSeen(current.ident, false, a) == Some(h)
            && h in {current.ident.before, current.ident.after}
            && !ApplyInDoubt(current.ident, false, a)
  {
  }

  lemma OnlyAppend(d: Disk, sent: seq<Effect>, e: Ending, r: Record)
    requires Append(r) in Finish(d, sent, e).effects && Closing(e.closing)
    requires forall k :: 0 <= k < |sent| ==> !sent[k].Append?
    ensures r == e.record
  {
  }

  lemma NoAppendInClaim(d: Disk, key: nat, action: Action, id: nat)
    ensures forall k :: 0 <= k < |ClaimEffects(d, key, action, id)| ==> !ClaimEffects(d, key, action, id)[k].Append?
  {
  }

  /**
   The record an apply leaves is settled on a state exactly when that state is the
   baseline or the intended one, was the last thing seen, and the write is not in doubt.
   */
  lemma ApplyVerdictIsWhatWasSeen(w: World, id: nat, key: KeyArg, dryRun: bool, a: ApplyAnswers, now: nat,
                                  r: Record, h: Hash)
    requires WorldInv(w) && Append(r) in ApplyCall(w, id, key, dryRun, a, now).effects
    ensures Loadable(w.disk, id) && a.seen.Some? && r.ident == Last(w.disk, id).ident
    ensures Settles(r, h)
       <==> && ApplyLastSeen(r.ident, ClaimName(id, Apply) in w.disk.claims, a) == Some(h)
            && h in {r.ident.before, r.ident.after}
            && !ApplyInDoubt(r.ident, ClaimName(id, Apply) in w.disk.claims, a)
  {
    hide Finish, Closing, Settles, ApplyReplay, AfterApply, ApplyLastSeen, ApplyInDoubt, RecordAccepted, ClaimEffects,
    ApplyWrites, Follows;
    hide ClaimsBack, ClaimsNamed, PlansNamed, PlanKeysUnique, SnapshotsBind, Budget, VaultBinds, HistoriesFine;
    var current := Last(w.disk, id);
    LastFine(w.disk, id);
    var claimed := ClaimName(id, Apply) in w.disk.claims;
    if claimed {
      ReplayFollows(current, a.seen.value.hash, now);
      ReplayRecord(current, a.seen.value.hash, now);
      OnlyAppend(w.disk, [], ApplyReplay(current, a.seen.value.hash, now), r);
      ReplayVerdict(current, a.seen.value.hash, now, h);
      ClaimedApply(current.ident, a);
    } else {
      AfterApplyFollows(current, a, now);
      AfterApplyRecord(current, a, now);
      NoAppendSent(w.disk, key.digest, current.ident, a);
      OnlyAppend(w.disk, ClaimEffects(w.disk, key.digest, Apply, id) + ApplyWrites(current.ident, a),
                 AfterApply(current, a, now), r);
      AfterApplyVerdict(current, a, now, h);
    }
  }

  lemma ClaimedApply(ident: Identity, a: ApplyAnswers)
    requires a.seen.Some?
    ensures ApplyLastSeen(ident, true, a) == Some(a.seen.value.hash) && !ApplyInDoubt(ident, true, a)
  {
  }

  lemma NoAppendSent(d: Disk, key: nat, ident: Identity, a: ApplyAnswers)
    ensures var sent := ClaimEffects(d, key, Apply, ident.id) + ApplyWrites(ident, a);
            forall k :: 0 <= k < |sent| ==> !sent[k].Append?
  {
  }

  // ----- rollback -----

  /** A rollback sends its restore only when it is unclaimed and the target shows the applied state. */
  predicate Restores(ident: Identity, claimed: bool, a: RollbackAnswers) {
    !claimed && a.seen.Some? && a.seen.value.hash == ident.after
  }

  function RollbackLastSeen(ident: Identity, claimed: bool, a: RollbackAnswers): Option<Hash>
    requires a.seen.Some?
  {
    if Restores(ident, claimed, a) then a.restored else Some(a.seen.value.hash)
  }

  predicate RollbackInDoubt(ident: Identity, claimed: bool, a: RollbackAnswers) {
    Restores(ident, claimed, a) && a.restore.Threw? && a.restore.unstable
  }

  lemma RollbackReplayVerdict(current: Record, actual: Hash, now: nat, h: Hash)
    requires current.ident.before != current.ident.after && RollbackReplay(current, actual, now).Ok?
    ensures Settles(RollbackReplay(current, actual, now).value.record, h)
       <==> h == actual && h in {current.ident.before, current.ident.after}
  {
  }

  lemma AfterRestoreVerdict(current: Record, a: RollbackAnswers, now: nat, h: Hash)
    requires current.ident.before != current.ident.after
    ensures Settles(AfterRestore(current, a, now).record, h)
       <==> && a.restored == Some(h)
            && h in {current.ident.before, current.ident.after}
            && !(a.restore.Threw? && a.restore.unstable)
  {
  }

  /** The same for rollback. */
  lemma RollbackVerdictIsWhatWasSeen(w: World, id: nat, key: KeyArg, dryRun: bool, a: RollbackAnswers, now: nat,
                                     r: Record, h: Hash)
    requires WorldInv(w) && Append(r) in RollbackCall(w, id, key, dryRun, a, now).effects
    ensures Loadable(w.disk, id) && a.seen.Some? && r.ident == Last(w.disk, id).ident
    ensures Settles(r, h)
       <==> && RollbackLastSeen(r.ident, ClaimName(id, Rollback) in w.disk.claims, a) == Some(h)
            && h in {r.ident.before, r.ident.after}
            && !RollbackInDoubt(r.ident, ClaimName(id, Rollback) in w.disk.claims, a)
  {
    hide Finish, Closing, Settles, RollbackReplay, AfterRestore, RecordAccepted, ClaimEffects, Follows, SnapshotBound,
    RollbackOnce;
    hide ClaimsBack, ClaimsNamed, PlansNamed, PlanKeysUnique, SnapshotsBind, Budget, VaultBinds, HistoriesFine;
    var current := Last(w.disk, id);
    LastFine(w.disk, id);
    if ClaimName(id, Rollback) in w.disk.claims {
      var replay := RollbackReplay(current, a.seen.value.hash, now);
      RollbackFollows(current, a.seen.value.hash, now);
      RollbackRecords(current, a.seen.value.hash, a, now);
      OnlyAppend(w.disk, [], replay.value, r);
      RollbackReplayVerdict(current, a.seen.value.hash, now, h);
    } else {
      RollbackOnceVerdict(w, current, key.digest, a, now, r, h);
    }
  }

  lemma RollbackOnceVerdict(w: World, current: Record, digest: nat, a: RollbackAnswers, now: nat, r: Record, h: Hash)
    requires a.seen.Some? && current.ident.before != current.ident.after && !current.state.RolledBack?
    requires Append(r) in RollbackOnce(w, current, digest, a, now).effects
    ensures r.ident == current.ident
    ensures Settles(r, h)
       <==> && RollbackLastSeen(r.ident, false, a) == Some(h)
            && h in {r.ident.before, r.ident.after}
            && !RollbackInDoubt(r.ident, false, a)
  {
    hide Finish, AfterRestore, Closing, Follows, ClaimEffects;
    var ident := current.ident;
    var claimed := ClaimEffects(w.disk, digest, Rollback, ident.id);
    NoAppendInClaim(w.disk, digest, Rollback, ident.id);
    ClosingOne(ident.id);
    if a.seen.value.hash == ident.after {
      RestoreFollows(current, a, now);
      RollbackRecords(current, 0, a, now);
      OnlyAppend(w.disk, claimed + [Dispatch(ident.id, RollbackRestore)], AfterRestore(current, a, now), r);
      AfterRestoreVerdict(current, a, now, h);
    } else {
      var back := RolledBackRecord(current, a.seen.value.hash, None, now);
      OnlyAppend(w.disk, claimed, Ending(back, [DropMaterial(ident.id)], Ok(Success(back, false, false))), r);
    }
  }

  // ----- verify -----

  /** A verify succeeds exactly when the target shows the state the last record is settled on. */
  lemma VerifySucceedsExactly(w: World, id: nat, actual: Option<Seen>, now: nat)
    requires WorldInv(w) && Room(w.disk, id, now)
    ensures VerifyCall(w, id, actual, now).result.Ok?
       <==> Loadable(w.disk, id) && actual.Some? && Settles(Last(w.disk, id), actual.value.hash)
  {
    hide ClaimsBack, ClaimsNamed, PlansNamed, PlanKeysUnique, SnapshotsBind, Budget, VaultBinds, HistoriesFine;
    if Loadable(w.disk, id) { LastFine(w.disk, id); }
  }
}
