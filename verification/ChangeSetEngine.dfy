/** The engine itself: a process that updates the store, its vault and the remote step by step. */
module ChangeSetEngine {
  import opened Prelude
  import opened ChangeSetStore
  import opened ChangeSetCalls
  import opened ChangeSetInvariant

  class Engine {
    var histories: map<nat, seq<Record>>
    var littered: set<nat>
    var claims: map<ClaimName, nat>
    var mappings: map<nat, Mapping>
    var snapshots: map<nat, Snapshot>
    var vault: Vault
    ghost var dispatched: seq<(nat, RemoteWrite)>

    /** Every durable and remote step this engine has taken, in order. */
    ghost var steps: seq<Effect>

    constructor (d: Disk)
      ensures Store() == d && vault == map[] && dispatched == [] && steps == []
    {
      histories, littered, claims, mappings, snapshots := d.histories, d.littered, d.claims, d.mappings, d.snapshots;
      vault := map[];
      dispatched, steps := [], [];
    }

    function Store(): Disk
      reads this
    {
      Disk(histories, littered, claims, mappings, snapshots)
    }

    ghost function Now(): World
      reads this
    {
      World(Store(), vault, dispatched)
    }

    /** The engine took exactly the steps of `o`, in that order, since `w` and `before`, and reports its result. */
    ghost predicate Performed(w: World, before: seq<Effect>, o: Outcome, result: Result<Success, Error>)
      reads this
    {
      && steps == before + o.effects
      && Now() == DoAll(w, o.effects)
      && result == o.result
    }

    // ----- Single steps -----

    method AppendChangeSet(r: Record) returns (accepted: bool)
      modifies this`histories, this`steps
      ensures accepted == AppendAccepted(old(Store()), r)
      ensures accepted ==> Now() == Do(old(Now()), Append(r)) && steps == old(steps) + [Append(r)]
      ensures !accepted ==> Now() == old(Now()) && steps == old(steps)
    {
      accepted := AppendAccepted(Store(), r);
      if accepted {
        histories := histories[r.ident.id := histories[r.ident.id] + [r]];
        steps := steps + [Append(r)];
      }
    }

    /** Binds the key first and takes the claim second, so that a cut in between leaves the action unclaimed. */
    method ClaimAction(key: nat, action: Action, id: nat)
      modifies this`mappings, this`claims, this`steps
      ensures Now() == DoAll(old(Now()), ClaimEffects(old(Store()), key, action, id))
      ensures steps == old(steps) + ClaimEffects(old(Store()), key, action, id)
    {
      ghost var w, before := Now(), steps;
      if key !in mappings {
        mappings := mappings[key := ActionMapping(action, id)];
        steps := steps + [WriteMapping(key, ActionMapping(action, id))];
      }
      claims := claims[ClaimName(id, action) := key];
      steps := steps + [WriteClaim(id, action, key)];
      ClaimSteps(w, key, action, id);
      assert steps == before + ClaimEffects(w.disk, key, action, id);
    }

    /** Sends one remote write; what comes back is decided by the remote alone. */
    method Send(id: nat, write: RemoteWrite)
      modifies this`dispatched, this`steps
      ensures Now() == Do(old(Now()), Dispatch(id, write)) && steps == old(steps) + [Dispatch(id, write)]
    {
      dispatched := dispatched + [(id, write)];
      steps := steps + [Dispatch(id, write)];
    }

    /** Appends the record; when the journal took it, forgets the private material if asked and reports. */
    method Conclude(r: Record, drop: bool, report: Result<Success, Error>) returns (result: Result<Success, Error>)
      modifies this
      ensures Performed(old(Now()), old(steps),
                        Finish(old(Store()), [], Ending(r, if drop then [DropMaterial(r.ident.id)] else [], report)), result)
    {
      ghost var w, before := Now(), steps;
      var accepted := AppendChangeSet(r);
      if !accepted { return Err(AppendRefused); }
      ghost var closing := if drop then [DropMaterial(r.ident.id)] else [];
      if drop {
        vault := vault - {r.ident.id};
        steps := steps + [DropMaterial(r.ident.id)];
      }
      ConcludeSteps(w, r, closing);
      assert [] + [Append(r)] + closing == [Append(r)] + closing;
      return report;
    }

    // ----- apply -----

    method ReconcileApply(current: Record, actual: Hash, now: nat) returns (result: Result<Success, Error>)
      modifies this
      ensures Performed(old(Now()), old(steps), Finish(old(Store()), [], ApplyReplay(current, actual, now)), result)
    {
      var ident := current.ident;
      if actual == ident.after {
        var r := AppliedRecord(current, actual, Some(ApplyReplayReconciled), now);
        result := Conclude(r, false, Ok(Success(r, false, false)));
      } else if actual == ident.before {
        var r := FailedRecord(current, now, ApplyPreviousAttemptUnchanged, None, Some(Checked(ident.before, actual, now)));
        result := Conclude(r, true, Err(RecoveryRequired));
      } else {
        var r := FailedRecord(current, now, ApplyAmbiguous, Some(actual), Some(Checked(ident.after, actual, now)));
        result := Conclude(r, false, Err(ErrApplyAmbiguous));
      }
    }

    /** Sends the write, and one recovery restore when an acknowledged write left a wrong state. */
    method WriteOnce(ident: Identity, a: ApplyAnswers)
      modifies this`dispatched, this`steps
      ensures Now() == DoAll(old(Now()), ApplyWrites(ident, a)) && steps == old(steps) + ApplyWrites(ident, a)
    {
      ghost var w := Now();
      Send(ident.id, ApplyWrite);
      DoSnoc(w, [], Dispatch(ident.id, ApplyWrite));
      assert [] + [Dispatch(ident.id, ApplyWrite)] == [Dispatch(ident.id, ApplyWrite)];
      if a.write.Returned? && a.write.hash != ident.after {
        Send(ident.id, RecoveryRestore);
        DoSnoc(w, [Dispatch(ident.id, ApplyWrite)], Dispatch(ident.id, RecoveryRestore));
      }
    }

    method JournalApply(current: Record, a: ApplyAnswers, now: nat) returns (result: Result<Success, Error>)
      modifies this
      ensures Performed(old(Now()), old(steps), Finish(old(Store()), [], AfterApply(current, a, now)), result)
    {
      var ident := current.ident;
      var threw := a.write.Threw?;
      var after := if threw then a.diagnostic else Some(a.write.hash);
      if threw && a.write.unstable {
        var r := FailedRecord(current, now, ApplyAmbiguous, after, CheckOf(ident.after, after, now));
        result := Conclude(r, false, Err(ErrApplyAmbiguous));
      } else if after == Some(ident.after) {
        var r := AppliedRecord(current, ident.after, if threw then Some(ApplyErrorReconciled) else None, now);
        result := Conclude(r, false, Ok(Success(r, true, false)));
      } else if threw {
        if after == Some(ident.before) {
          var r := FailedRecord(current, now, ApplyFailedUnchanged, None, CheckOf(ident.before, after, now));
          result := Conclude(r, true, Err(ErrApplyFailedUnchanged));
        } else {
          var r := FailedRecord(current, now, ApplyAmbiguous, after, CheckOf(ident.after, after, now));
          result := Conclude(r, false, Err(ErrApplyAmbiguous));
        }
      } else {
        var proven := a.recovered == Some(ident.before);
        var code := if proven then ApplyVerificationFailedRecovered else ApplyVerificationFailedRecoveryUnproven;
        var r := FailedRecord(current, now, code, after, CheckOf(ident.before, a.recovered, now));
        result := Conclude(r, proven, Err(ErrApplyVerificationFailed));
      }
    }

    method ApplyFirst(current: Record, digest: nat, a: ApplyAnswers, now: nat) returns (result: Result<Success, Error>)
      requires a.seen.Some?
      modifies this
      ensures Performed(old(Now()), old(steps), ApplyOnce(old(Store()), current, digest, a, now), result)
    {
      hide AfterApply, Finish, ClaimEffects, ApplyWrites, DoAll, Do;
      var ident := current.ident;
      ghost var w, before := Now(), steps;
      EmptyRefusal(w);
      if a.seen.value.hash != ident.before { return Err(StaleTarget); }
      if ident.revision.Some? && a.seen.value.revision != ident.revision { return Err(StaleRevision); }
      ClaimAction(digest, Action.Apply, ident.id);
      ghost var claimed := ClaimEffects(w.disk, digest, Action.Apply, ident.id);
      WriteOnce(ident, a);
      ghost var sent := claimed + ApplyWrites(ident, a);
      DoCat(w, claimed, ApplyWrites(ident, a));
      ApplySentFrame(w, digest, ident, a);
      FinishLater(w, sent, AfterApply(current, a, now));
      result := JournalApply(current, a, now);
      assert steps == before + Finish(w.disk, sent, AfterApply(current, a, now)).effects;
    }

    method Apply(id: nat, key: KeyArg, dryRun: bool, a: ApplyAnswers, now: nat) returns (result: Result<Success, Error>)
      modifies this
      ensures Performed(old(Now()), old(steps), ApplyCall(old(Now()), id, key, dryRun, a, now), result)
    {
      hide ApplyReplay, ApplyOnce, Finish, DoAll, Do;
      EmptyRefusal(Now());
      if id !in histories { return Err(ChangeSetNotFound); }
      if histories[id] == [] || id in littered { return Err(StateCorrupt); }
      var current := histories[id][|histories[id]| - 1];
      if dryRun { return Ok(Success(current, false, true)); }
      if key.NoKey? { return Err(IdempotencyKeyRequired); }
      if key.MalformedKey? { return Err(InvalidIdempotencyKey); }
      var attempt := AttemptStatus(Store(), key.digest, Action.Apply, id);
      if attempt.Err? { return Err(attempt.error); }
      if current.state.Applied? || current.state.Verified? {
        if !attempt.value.Replay? { return Err(AppliedWithoutClaim); }
        return Ok(Success(current, false, false));
      }
      if !current.state.Planned? { return Err(ChangeSetNotApplicable); }
      if id !in vault { return Err(PlanMaterialUnavailable); }
      var m := vault[id];
      if m.before != current.ident.before || m.revision != current.ident.revision || m.request != current.ident.request {
        return Err(PlanMaterialMismatch);
      }
      if a.seen.None? { return Err(ReadFailed); }
      if attempt.value.Replay? {
        result := ReconcileApply(current, a.seen.value.hash, now);
      } else {
        result := ApplyFirst(current, key.digest, a, now);
      }
    }

    // ----- verify -----

    method Verify(id: nat, actual: Option<Seen>, now: nat) returns (result: Result<Success, Error>)
      modifies this
      ensures Performed(old(Now()), old(steps), VerifyCall(old(Now()), id, actual, now), result)
    {
      hide Finish, DoAll, Do;
      EmptyRefusal(Now());
      if id !in histories { return Err(ChangeSetNotFound); }
      if histories[id] == [] || id in littered { return Err(StateCorrupt); }
      var current := histories[id][|histories[id]| - 1];
      var expected := ExpectedForVerification(current);
      if expected.Err? { return Err(expected.error); }
      if actual.None? { return Err(ReadFailed); }
      var checked := Checked(expected.value, actual.value.hash, now);
      var promoted := checked.exactMatch && (current.state.Applied? || current.state.Verified?);
      var next := current.(state := if promoted then Verified else current.state,
      updatedAt := now, verification := Some(checked));
      assert next == VerifyRecord(current, expected.value, actual.value.hash, now);
      result := Conclude(next, false, if checked.exactMatch then Ok(Success(next, false, true)) else Err(VerificationFailed));
    }

    // ----- rollback -----

    method ReconcileRollback(current: Record, actual: Hash, now: nat) returns (result: Result<Success, Error>)
      modifies this
      ensures var replay := RollbackReplay(current, actual, now);
              Performed(old(Now()), old(steps),
                        if replay.Err? then Refuse(replay.error) else Finish(old(Store()), [], replay.value), result)
    {
      hide Finish, DoAll, Do;
      EmptyRefusal(Now());
      var ident := current.ident;
      if actual == ident.before {
        var r := RolledBackRecord(current, actual, Some(RollbackReplayReconciled), now);
        result := Conclude(r, true, Ok(Success(r, false, false)));
      } else if actual == ident.after {
        if current.state.Failed? && current.failure == Some(RollbackPreviousAttemptUnchanged) {
          return Err(RecoveryRequired);
        }
        var r := FailedRecord(current, now, RollbackPreviousAttemptUnchanged, None, Some(Checked(ident.after, actual, now)));
        result := Conclude(r, false, Err(RecoveryRequired));
      } else {
        if current.state.Failed? && current.failure == Some(RollbackAmbiguous) { return Err(ErrRollbackAmbiguous); }
        var applied := if current.appliedHash.Some? then current.appliedHash else Some(actual);
        var r := FailedRecord(current, now, RollbackAmbiguous, applied, Some(Checked(ident.before, actual, now)));
        result := Conclude(r, false, Err(ErrRollbackAmbiguous));
      }
    }

    method JournalRestore(current: Record, a: RollbackAnswers, now: nat) returns (result: Result<Success, Error>)
      modifies this
      ensures Performed(old(Now()), old(steps), Finish(old(Store()), [], AfterRestore(current, a, now)), result)
    {
      hide Finish, DoAll, Do;
      var ident := current.ident;
      var threw := a.restore.Threw?;
      if threw && a.restore.unstable {
        var r := FailedRecord(current, now, RollbackAmbiguous, None, CheckOf(ident.before, a.restored, now));
        result := Conclude(r, false, Err(ErrRollbackAmbiguous));
      } else if a.restored == Some(ident.before) {
        var r := RolledBackRecord(current, ident.before, if threw then Some(RollbackErrorReconciled) else None, now);
        result := Conclude(r, true, Ok(Success(r, true, false)));
      } else if a.restored == Some(ident.after) {
        var r := FailedRecord(current, now, RollbackFailedUnchanged, None, CheckOf(ident.after, a.restored, now));
        result := Conclude(r, false, Err(ErrRollbackFailedUnchanged));
      } else {
        var r := FailedRecord(current, now, RollbackAmbiguous, None, CheckOf(ident.before, a.restored, now));
        result := Conclude(r, false, Err(ErrRollbackAmbiguous));
      }
    }

    method RollbackFirst(current: Record, digest: nat, a: RollbackAnswers, now: nat) returns (result: Result<Success, Error>)
      requires a.seen.Some?
      modifies this
      ensures Performed(old(Now()), old(steps), RollbackOnce(old(Now()), current, digest, a, now), result)
    {
      hide AfterRestore, Finish, ClaimEffects, DoAll, Do;
      var ident := current.ident;
      var actual := a.seen.value.hash;
      ghost var w, before := Now(), steps;
      EmptyRefusal(w);
      var alreadyBaseline := actual == ident.before;
      var requiresRemoteRestore := actual == ident.after;
      if current.state.Planned? && !alreadyBaseline { return Err(StaleTarget); }
      if (current.state.Applied? || current.state.Verified?) && !requiresRemoteRestore { return Err(StaleTarget); }
      if current.state.Failed? && !alreadyBaseline && !requiresRemoteRestore { return Err(StaleTarget); }
      if requiresRemoteRestore {
        if ident.id !in vault { return Err(PlanMaterialUnavailable); }
        if vault[ident.id].before != ident.before { return Err(SnapshotMismatch); }
      }
      ClaimAction(digest, Action.Rollback, ident.id);
      ghost var claimed := ClaimEffects(w.disk, digest, Action.Rollback, ident.id);
      ClaimFrame(w, digest, Action.Rollback, ident.id);
      if !requiresRemoteRestore {
        var r := RolledBackRecord(current, actual, None, now);
        FinishLater(w, claimed, Ending(r, [DropMaterial(ident.id)], Ok(Success(r, false, false))));
        result := Conclude(r, true, Ok(Success(r, false, false)));
        return;
      }
      Send(ident.id, RollbackRestore);
      DoSnoc(w, claimed, Dispatch(ident.id, RollbackRestore));
      DispatchFrame(DoAll(w, claimed), ident.id, RollbackRestore);
      FinishLater(w, claimed + [Dispatch(ident.id, RollbackRestore)], AfterRestore(current, a, now));
      result := JournalRestore(current, a, now);
    }

    method Rollback(id: nat, key: KeyArg, dryRun: bool, a: RollbackAnswers, now: nat)
      returns (result: Result<Success, Error>)
      modifies this
      ensures Performed(old(Now()), old(steps), RollbackCall(old(Now()), id, key, dryRun, a, now), result)
    {
      hide RollbackReplay, RollbackOnce, Finish, DoAll, Do;
      EmptyRefusal(Now());
      if id !in histories { return Err(ChangeSetNotFound); }
      if histories[id] == [] || id in littered { return Err(StateCorrupt); }
      var current := histories[id][|histories[id]| - 1];
      if dryRun { return Ok(Success(current, false, true)); }
      if key.NoKey? { return Err(IdempotencyKeyRequired); }
      if key.MalformedKey? { return Err(InvalidIdempotencyKey); }
      var attempt := AttemptStatus(Store(), key.digest, Action.Rollback, id);
      if attempt.Err? { return Err(attempt.error); }
      if current.state.RolledBack? {
        if !attempt.value.Replay? { return Err(RolledBackWithoutClaim); }
        return Ok(Success(current, false, false));
      }
      if a.seen.None? { return Err(ReadFailed); }
      if !SnapshotBound(Store(), current.ident) { return Err(SnapshotMismatch); }
      if attempt.value.Replay? {
        result := ReconcileRollback(current, a.seen.value.hash, now);
      } else {
        result := RollbackFirst(current, key.digest, a, now);
      }
    }

    // ----- plan -----

    method Plan(p: PlanRequest, a: PlanAnswers, newId: nat, now: nat) returns (result: Result<Success, Error>)
      modifies this
      ensures Performed(old(Now()), old(steps), PlanCall(old(Now()), p, a, newId, now), result)
    {
      hide PlanNew, FindPlan, DoAll, Do;
      EmptyRefusal(Now());
      if p.key.MalformedKey? { return Err(InvalidIdempotencyKey); }
      if p.key.Key? {
        var found := FindPlan(Store(), p.key.digest);
        if found.Err? { return Err(found.error); }
        if found.value.Some? {
          var existing := found.value.value;
          if existing.ident.request != p.request || existing.ident.authority != p.authority {
            return Err(IdempotencyConflict);
          }
          return Ok(Success(existing, false, true));
        }
      }
      result := PlanFirst(p, a, newId, now);
    }

    method PlanFirst(p: PlanRequest, a: PlanAnswers, newId: nat, now: nat) returns (result: Result<Success, Error>)
      modifies this
      ensures Performed(old(Now()), old(steps), PlanNew(old(Now()), p, a, newId, now), result)
    {
      ghost var w, before := Now(), steps;
      hide DoAll, Do, AllLoadable;
      EmptyRefusal(w);
      if a.before.None? { return Err(ReadFailed); }
      if !a.planBound { return Err(InvalidAdapterPlan); }
      if a.before.value.hash == a.after { return Err(NoChanges); }
      var r := PlannedRecord(p, a, newId, now);
      var loadable := AllLoadable(Store());
      WritePlan(r, Material(p.request, a.before.value.hash, a.before.value.revision), Snapshot(p.adapter, p.target, a.before.value.hash));
      ghost var written := [PutMaterial(newId, Material(p.request, a.before.value.hash, a.before.value.revision)),
                            WriteSnapshot(newId, Snapshot(p.adapter, p.target, a.before.value.hash)),
                            WriteFirst(r)];
      if p.key.Key? {
        if p.key.digest in mappings {
          Withdraw(newId, loadable);
          ghost var undone := [RemoveChangeSet(newId), DropMaterial(newId)] + (if loadable then [DiscardSnapshot(newId)] else []);
          DoCat(w, written, undone);
          assert written + undone == written + [RemoveChangeSet(newId), DropMaterial(newId)]
                                     + (if loadable then [DiscardSnapshot(newId)] else []);
          return Err(IdempotencyConflict);
        }
        mappings := mappings[p.key.digest := PlanMapping(newId)];
        steps := steps + [WriteMapping(p.key.digest, PlanMapping(newId))];
        DoSnoc(w, written, WriteMapping(p.key.digest, PlanMapping(newId)));
        MappingStep(DoAll(w, written), p.key.digest, PlanMapping(newId));
      }
      return Ok(Success(r, false, true));
    }

    /** Private material first, then the snapshot, then the first journal event. */
    method WritePlan(r: Record, m: Material, snapshot: Snapshot)
      modifies this`vault, this`snapshots, this`histories, this`steps
      ensures var es := [PutMaterial(r.ident.id, m), WriteSnapshot(r.ident.id, snapshot), WriteFirst(r)];
              Now() == DoAll(old(Now()), es) && steps == old(steps) + es
      ensures mappings == old(mappings)
    {
      ghost var w, before := Now(), steps;
      var id := r.ident.id;
      vault := vault[id := m];
      snapshots := snapshots[id := snapshot];
      histories := histories[id := [r]];
      ghost var es := [PutMaterial(id, m), WriteSnapshot(id, snapshot), WriteFirst(r)];
      steps := steps + es;
      DoThree(w, es[0], es[1], es[2]);
    }

    /** Takes back a plan whose key turned out to be bound to something else. */
    method Withdraw(id: nat, loadable: bool)
      modifies this`vault, this`snapshots, this`histories, this`littered, this`steps
      ensures var es := [RemoveChangeSet(id), DropMaterial(id)] + (if loadable then [DiscardSnapshot(id)] else []);
              Now() == DoAll(old(Now()), es) && steps == old(steps) + es
    {
      ghost var w, before := Now(), steps;
      ghost var es := [RemoveChangeSet(id), DropMaterial(id)] + (if loadable then [DiscardSnapshot(id)] else []);
      WithdrawSteps(w, id, loadable);
      histories, littered := histories - {id}, littered - {id};
      vault := vault - {id};
      if loadable { snapshots := snapshots - {id}; }
      steps := steps + es;
    }
  }

  lemma WithdrawSteps(w: World, id: nat, loadable: bool)
    ensures DoAll(w, [RemoveChangeSet(id), DropMaterial(id)] + (if loadable then [DiscardSnapshot(id)] else []))
         == World(w.disk.(histories := w.disk.histories - {id}, littered := w.disk.littered - {id},
                          snapshots := if loadable then w.disk.snapshots - {id} else w.disk.snapshots),
                  w.vault - {id}, w.dispatched)
  {
    hide DoAll;
    if loadable {
      DoThree(w, RemoveChangeSet(id), DropMaterial(id), DiscardSnapshot(id));
      assert [RemoveChangeSet(id), DropMaterial(id)] + [DiscardSnapshot(id)]
          == [RemoveChangeSet(id), DropMaterial(id), DiscardSnapshot(id)];
    } else {
      DoTwo(w, RemoveChangeSet(id), DropMaterial(id));
      assert [RemoveChangeSet(id), DropMaterial(id)] + [] == [RemoveChangeSet(id), DropMaterial(id)];
    }
  }

  // ----- Steps in the specification -----

  lemma EmptyRefusal(w: World)
    ensures DoAll(w, []) == w
  {
  }

  lemma DoTwo(w: World, a: Effect, b: Effect)
    ensures DoAll(w, [a, b]) == Do(Do(w, a), b)
  {
    hide Do;
    DoSnoc(w, [], a);
    assert [] + [a] == [a];
    DoSnoc(w, [a], b);
    assert [a] + [b] == [a, b];
  }

  lemma DoThree(w: World, a: Effect, b: Effect, c: Effect)
    ensures DoAll(w, [a, b, c]) == Do(Do(Do(w, a), b), c)
  {
    hide Do;
    DoTwo(w, a, b);
    DoSnoc(w, [a, b], c);
    assert [a, b] + [c] == [a, b, c];
  }

  lemma MappingStep(w: World, key: nat, mapping: Mapping)
    ensures Do(w, WriteMapping(key, mapping)) == w.(disk := w.disk.(mappings := w.disk.mappings[key := mapping]))
  {
  }

  lemma ClaimSteps(w: World, key: nat, action: Action, id: nat)
    ensures DoAll(w, ClaimEffects(w.disk, key, action, id))
         == (if key in w.disk.mappings then Do(w, WriteClaim(id, action, key))
             else Do(Do(w, WriteMapping(key, ActionMapping(action, id))), WriteClaim(id, action, key)))
  {
    hide Do;
    if key in w.disk.mappings {
      DoSnoc(w, [], WriteClaim(id, action, key));
    } else {
      DoTwo(w, WriteMapping(key, ActionMapping(action, id)), WriteClaim(id, action, key));
      assert ClaimEffects(w.disk, key, action, id)
          == [WriteMapping(key, ActionMapping(action, id)), WriteClaim(id, action, key)];
    }
  }

  lemma ConcludeSteps(w: World, r: Record, closing: seq<Effect>)
    requires closing == [] || closing == [DropMaterial(r.ident.id)]
    ensures DoAll(w, [Append(r)] + closing)
         == (if closing == [] then Do(w, Append(r)) else Do(Do(w, Append(r)), DropMaterial(r.ident.id)))
  {
    hide Do;
    if closing == [] {
      DoSnoc(w, [], Append(r));
      assert [Append(r)] + closing == [] + [Append(r)];
    } else {
      DoTwo(w, Append(r), DropMaterial(r.ident.id));
      assert [Append(r)] + closing == [Append(r), DropMaterial(r.ident.id)];
    }
  }

  predicate SameJournal(a: Disk, b: Disk) {
    a.histories == b.histories && a.littered == b.littered
  }

  lemma ClaimFrame(w: World, key: nat, action: Action, id: nat)
    ensures SameJournal(DoAll(w, ClaimEffects(w.disk, key, action, id)).disk, w.disk)
  {
    ClaimSteps(w, key, action, id);
    hide DoAll;
  }

  lemma DispatchFrame(w: World, id: nat, write: RemoteWrite)
    ensures SameJournal(Do(w, Dispatch(id, write)).disk, w.disk)
  {
  }

  lemma ApplySentFrame(w: World, key: nat, ident: Identity, a: ApplyAnswers)
    ensures SameJournal(DoAll(w, ClaimEffects(w.disk, key, Apply, ident.id) + ApplyWrites(ident, a)).disk, w.disk)
  {
    hide DoAll, Do, ClaimEffects;
    var claimed := ClaimEffects(w.disk, key, Apply, ident.id);
    ClaimFrame(w, key, Apply, ident.id);
    DoSnoc(w, claimed, Dispatch(ident.id, ApplyWrite));
    DispatchFrame(DoAll(w, claimed), ident.id, ApplyWrite);
    if Recovers(ident, a) {
      var one := claimed + [Dispatch(ident.id, ApplyWrite)];
      DoSnoc(w, one, Dispatch(ident.id, RecoveryRestore));
      DispatchFrame(DoAll(w, one), ident.id, RecoveryRestore);
      assert one + [Dispatch(ident.id, RecoveryRestore)] == claimed + ApplyWrites(ident, a);
    } else {
      assert ApplyWrites(ident, a) == [Dispatch(ident.id, ApplyWrite)];
    }
  }

  /** Concluding after some steps that left the journal alone is concluding from the start with those steps before it. */
  lemma FinishLater(w: World, sent: seq<Effect>, e: Ending)
    requires SameJournal(DoAll(w, sent).disk, w.disk)
    ensures var later := Finish(DoAll(w, sent).disk, [], e);
            var whole := Finish(w.disk, sent, e);
            && whole.effects == sent + later.effects
            && whole.result == later.result
            && DoAll(w, whole.effects) == DoAll(DoAll(w, sent), later.effects)
  {
    hide DoAll, RecordAccepted, TransitionAccepted;
    var later := Finish(DoAll(w, sent).disk, [], e);
    assert Finish(w.disk, sent, e).effects == sent + later.effects;
    DoCat(w, sent, later.effects);
  }
}
