/**
 What each engine call does, as the list of its durable and remote steps in order.
 A call that is cut short by a crash has performed a prefix of this list. Answers
 of the remote are inputs: any read may fail or show any state, any write may be
 acknowledged, rejected or lost.
 */
module ChangeSetCalls {
  import opened Prelude
  import opened ChangeSetStore

  datatype Material = Material(request: Hash, before: Hash, revision: Option<nat>)

  datatype RemoteWrite = ApplyWrite | RecoveryRestore | RollbackRestore

  datatype Effect =
    | WriteMapping(key: nat, mapping: Mapping)
    | WriteClaim(id: nat, action: Action, key: nat)
    | Dispatch(id: nat, write: RemoteWrite)
    | Append(record: Record)
    | PutMaterial(id: nat, material: Material)
    | DropMaterial(id: nat)
    | WriteSnapshot(snapshotId: nat, snapshot: Snapshot)
    | WriteFirst(record: Record)
    | RemoveChangeSet(id: nat)
    | DiscardSnapshot(snapshotId: nat)

  datatype Success = Success(record: Record, stateChanged: bool, dryRun: bool)

  datatype Outcome = Outcome(effects: seq<Effect>, result: Result<Success, Error>)

  function Refuse(e: Error): Outcome { Outcome([], Err(e)) }

  type Vault = map<nat, Material>

  /** The durable state, this process's vault, and every remote write dispatched so far. */
  datatype World = World(disk: Disk, vault: Vault, dispatched: seq<(nat, RemoteWrite)>)

  // ----- Remote answers -----

  datatype Seen = Seen(hash: Hash, revision: Option<nat>)

  /** A write either returned a state or threw, perhaps with the code that marks an unstable HEAD write. */
  datatype Reply = Returned(hash: Hash) | Threw(unstable: bool)

  datatype ApplyAnswers = ApplyAnswers(
    seen: Option<Seen>, write: Reply, diagnostic: Option<Hash>, recovered: Option<Hash>)

  datatype RollbackAnswers = RollbackAnswers(seen: Option<Seen>, restore: Reply, restored: Option<Hash>)

  // ----- Building blocks -----

  function FailedRecord(current: Record, now: nat, code: FailureCode,
                        applied: Option<Hash>, check: Option<Verification>): Record
  {
    current.(state := Failed, updatedAt := now, failure := Some(code),
    appliedHash := if applied.Some? then applied else current.appliedHash,
    verification := if check.Some? then check else current.verification)
  }

  function CheckOf(expected: Hash, actual: Option<Hash>, now: nat): Option<Verification> {
    if actual.None? then None else Some(Checked(expected, actual.value, now))
  }

  /** How a call ends: the record it appends, what it drops afterwards, and what it returns. */
  datatype Ending = Ending(record: Record, closing: seq<Effect>, result: Result<Success, Error>)

  /** Steps taken so far, then one append; a refused append ends the call there. */
  function Finish(d: Disk, sent: seq<Effect>, e: Ending): Outcome {
    if AppendAccepted(d, e.record) then Outcome(sent + [Append(e.record)] + e.closing, e.result)
    else Outcome(sent, Err(AppendRefused))
  }

  function ClaimEffects(d: Disk, key: nat, action: Action, id: nat): seq<Effect> {
    (if key in d.mappings then [] else [WriteMapping(key, ActionMapping(action, id))])
    + [WriteClaim(id, action, key)]
  }

  // ----- apply -----

  function ApplyCall(w: World, id: nat, key: KeyArg, dryRun: bool, a: ApplyAnswers, now: nat): Outcome {
    if id !in w.disk.histories then Refuse(ChangeSetNotFound)
    else if !Loadable(w.disk, id) then Refuse(StateCorrupt)
    else
      var current := Last(w.disk, id);
      if dryRun then Outcome([], Ok(Success(current, false, true)))
      else match key
        case NoKey => Refuse(IdempotencyKeyRequired)
        case MalformedKey => Refuse(InvalidIdempotencyKey)
        case Key(digest) =>
          var attempt := AttemptStatus(w.disk, digest, Apply, id);
          if attempt.Err? then Refuse(attempt.error)
          else if current.state.Applied? || current.state.Verified? then
            if attempt.value.Replay? then Outcome([], Ok(Success(current, false, false)))
            else Refuse(AppliedWithoutClaim)
          else if !current.state.Planned? then Refuse(ChangeSetNotApplicable)
          else if id !in w.vault then Refuse(PlanMaterialUnavailable)
          else
            var m := w.vault[id];
            if m.before != current.ident.before || m.revision != current.ident.revision
               || m.request != current.ident.request then Refuse(PlanMaterialMismatch)
            else if a.seen.None? then Refuse(ReadFailed)
            else if attempt.value.Replay? then Finish(w.disk, [], ApplyReplay(current, a.seen.value.hash, now))
            else ApplyOnce(w.disk, current, digest, a, now)
  }

  function AppliedRecord(current: Record, actual: Hash, code: Option<ReconciliationCode>, now: nat): Record {
    current.(state := Applied, updatedAt := now, appliedHash := Some(actual),
    reconciliation := if code.Some? then code else current.reconciliation,
    verification := Some(Checked(current.ident.after, actual, now)))
  }

  /** A durable claim without an outcome: classify what is there now, never write again. */
  function ApplyReplay(current: Record, actual: Hash, now: nat): Ending {
    var ident := current.ident;
    if actual == ident.after then
      var r := AppliedRecord(current, actual, Some(ApplyReplayReconciled), now);
      Ending(r, [], Ok(Success(r, false, false)))
    else if actual == ident.before then
      Ending(FailedRecord(current, now, ApplyPreviousAttemptUnchanged, None, Some(Checked(ident.before, actual, now))),
             [DropMaterial(ident.id)], Err(RecoveryRequired))
    else
      Ending(FailedRecord(current, now, ApplyAmbiguous, Some(actual), Some(Checked(ident.after, actual, now))),
             [], Err(ErrApplyAmbiguous))
  }

  function ApplyOnce(d: Disk, current: Record, digest: nat, a: ApplyAnswers, now: nat): Outcome
    requires a.seen.Some?
  {
    var ident := current.ident;
    if a.seen.value.hash != ident.before then Refuse(StaleTarget)
    else if ident.revision.Some? && a.seen.value.revision != ident.revision then Refuse(StaleRevision)
    else
      Finish(d, ClaimEffects(d, digest, Apply, ident.id) + ApplyWrites(ident, a), AfterApply(current, a, now))
  }

  /** An acknowledged write that left a wrong state is answered by one recovery restore. */
  predicate Recovers(ident: Identity, a: ApplyAnswers) {
    a.write.Returned? && a.write.hash != ident.after
  }

  function ApplyWrites(ident: Identity, a: ApplyAnswers): seq<Effect> {
    [Dispatch(ident.id, ApplyWrite)] + (if Recovers(ident, a) then [Dispatch(ident.id, RecoveryRestore)] else [])
  }

  function AfterApply(current: Record, a: ApplyAnswers, now: nat): Ending {
    var ident := current.ident;
    var threw := a.write.Threw?;
    var after := if threw then a.diagnostic else Some(a.write.hash);
    if threw && a.write.unstable then
      Ending(FailedRecord(current, now, ApplyAmbiguous, after, CheckOf(ident.after, after, now)),
             [], Err(ErrApplyAmbiguous))
    else if after == Some(ident.after) then
      var r := AppliedRecord(current, ident.after, if threw then Some(ApplyErrorReconciled) else None, now);
      Ending(r, [], Ok(Success(r, true, false)))
    else if threw && after == Some(ident.before) then
      Ending(FailedRecord(current, now, ApplyFailedUnchanged, None, CheckOf(ident.before, after, now)),
             [DropMaterial(ident.id)], Err(ErrApplyFailedUnchanged))
    else if threw then
      Ending(FailedRecord(current, now, ApplyAmbiguous, after, CheckOf(ident.after, after, now)),
             [], Err(ErrApplyAmbiguous))
    else
      RecoveryEnding(current, after, a.recovered, now)
  }

  function RecoveryEnding(current: Record, after: Option<Hash>, recovered: Option<Hash>, now: nat): Ending {
    var ident := current.ident;
    var check := CheckOf(ident.before, recovered, now);
    if recovered == Some(ident.before) then
      Ending(FailedRecord(current, now, ApplyVerificationFailedRecovered, after, check),
             [DropMaterial(ident.id)], Err(ErrApplyVerificationFailed))
    else
      Ending(FailedRecord(current, now, ApplyVerificationFailedRecoveryUnproven, after, check),
             [], Err(ErrApplyVerificationFailed))
  }

  // ----- verify -----

  function ExpectedForVerification(r: Record): Result<Hash, Error> {
    if r.state.Planned? || r.state.RolledBack? then Ok(r.ident.before)
    else if r.state.Applied? || r.state.Verified? then Ok(r.ident.after)
    else match r.failure
      case Some(ApplyFailedUnchanged) => Ok(r.ident.before)
      case Some(ApplyPreviousAttemptUnchanged) => Ok(r.ident.before)
      case Some(ApplyVerificationFailedRecovered) => Ok(r.ident.before)
      case Some(RollbackFailedUnchanged) => Ok(r.ident.after)
      case Some(RollbackPreviousAttemptUnchanged) => Ok(r.ident.after)
      case _ => Err(AmbiguousState)
  }

  function VerifyRecord(current: Record, expected: Hash, actual: Hash, now: nat): Record {
    current.(updatedAt := now, verification := Some(Checked(expected, actual, now)),
    state := if expected == actual && current.state.Applied? then Verified else current.state)
  }

  function VerifyCall(w: World, id: nat, actual: Option<Seen>, now: nat): Outcome {
    if id !in w.disk.histories then Refuse(ChangeSetNotFound)
    else if !Loadable(w.disk, id) then Refuse(StateCorrupt)
    else
      var current := Last(w.disk, id);
      var expected := ExpectedForVerification(current);
      if expected.Err? then Refuse(expected.error)
      else if actual.None? then Refuse(ReadFailed)
      else
        var next := VerifyRecord(current, expected.value, actual.value.hash, now);
        Finish(w.disk, [], Ending(next, [],
                                  if expected.value == actual.value.hash then Ok(Success(next, false, true))
                                  else Err(VerificationFailed)))
  }

  // ----- rollback -----

  function RollbackCall(w: World, id: nat, key: KeyArg, dryRun: bool, a: RollbackAnswers, now: nat): Outcome {
    if id !in w.disk.histories then Refuse(ChangeSetNotFound)
    else if !Loadable(w.disk, id) then Refuse(StateCorrupt)
    else
      var current := Last(w.disk, id);
      if dryRun then Outcome([], Ok(Success(current, false, true)))
      else match key
        case NoKey => Refuse(IdempotencyKeyRequired)
        case MalformedKey => Refuse(InvalidIdempotencyKey)
        case Key(digest) =>
          var attempt := AttemptStatus(w.disk, digest, Rollback, id);
          if attempt.Err? then Refuse(attempt.error)
          else if current.state.RolledBack? then
            if attempt.value.Replay? then Outcome([], Ok(Success(current, false, false)))
            else Refuse(RolledBackWithoutClaim)
          else if a.seen.None? then Refuse(ReadFailed)
          else if !SnapshotBound(w.disk, current.ident) then Refuse(SnapshotMismatch)
          else if attempt.value.Replay? then
            var replay := RollbackReplay(current, a.seen.value.hash, now);
            if replay.Err? then Refuse(replay.error) else Finish(w.disk, [], replay.value)
          else RollbackOnce(w, current, digest, a, now)
  }

  predicate SnapshotBound(d: Disk, ident: Identity) {
    && ident.snapshotId in d.snapshots
    && d.snapshots[ident.snapshotId] == Snapshot(ident.adapter, ident.target, ident.before)
  }

  function RolledBackRecord(current: Record, actual: Hash, code: Option<ReconciliationCode>, now: nat): Record {
    current.(state := RolledBack, updatedAt := now,
    reconciliation := if code.Some? then code else current.reconciliation,
    verification := Some(Checked(current.ident.before, actual, now)))
  }

  /** A claimed rollback: classify what is there now; the same finding is journaled only once. */
  function RollbackReplay(current: Record, actual: Hash, now: nat): Result<Ending, Error> {
    var ident := current.ident;
    if actual == ident.before then
      var r := RolledBackRecord(current, actual, Some(RollbackReplayReconciled), now);
      Ok(Ending(r, [DropMaterial(ident.id)], Ok(Success(r, false, false))))
    else if actual == ident.after then
      if current.state.Failed? && current.failure == Some(RollbackPreviousAttemptUnchanged) then Err(RecoveryRequired)
      else Ok(Ending(FailedRecord(current, now, RollbackPreviousAttemptUnchanged, None,
                                  Some(Checked(ident.after, actual, now))),
                     [], Err(RecoveryRequired)))
    else if current.state.Failed? && current.failure == Some(RollbackAmbiguous) then Err(ErrRollbackAmbiguous)
    else
      Ok(Ending(FailedRecord(current, now, RollbackAmbiguous,
                             if current.appliedHash.Some? then current.appliedHash else Some(actual),
                             Some(Checked(ident.before, actual, now))),
                [], Err(ErrRollbackAmbiguous)))
  }

  function RollbackOnce(w: World, current: Record, digest: nat, a: RollbackAnswers, now: nat): Outcome
    requires a.seen.Some?
  {
    var ident := current.ident;
    var actual := a.seen.value.hash;
    var alreadyBaseline := actual == ident.before;
    var needsRestore := actual == ident.after;
    if current.state.Planned? && !alreadyBaseline then Refuse(StaleTarget)
    else if (current.state.Applied? || current.state.Verified?) && !needsRestore then Refuse(StaleTarget)
    else if current.state.Failed? && !alreadyBaseline && !needsRestore then Refuse(StaleTarget)
    else if needsRestore && ident.id !in w.vault then Refuse(PlanMaterialUnavailable)
    else if needsRestore && w.vault[ident.id].before != ident.before then Refuse(SnapshotMismatch)
    else
      var claimed := ClaimEffects(w.disk, digest, Rollback, ident.id);
      if !needsRestore then
        var r := RolledBackRecord(current, actual, None, now);
        Finish(w.disk, claimed, Ending(r, [DropMaterial(ident.id)], Ok(Success(r, false, false))))
      else
        Finish(w.disk, claimed + [Dispatch(ident.id, RollbackRestore)], AfterRestore(current, a, now))
  }

  function AfterRestore(current: Record, a: RollbackAnswers, now: nat): Ending {
    var ident := current.ident;
    var failed := FailedRecord(current, now, RollbackAmbiguous, None, CheckOf(ident.before, a.restored, now));
    if a.restore.Threw? && a.restore.unstable then
      Ending(failed, [], Err(ErrRollbackAmbiguous))
    else if a.restored == Some(ident.before) then
      var r := RolledBackRecord(current, ident.before,
                                if a.restore.Threw? then Some(RollbackErrorReconciled) else None, now);
      Ending(r, [DropMaterial(ident.id)], Ok(Success(r, true, false)))
    else if a.restored == Some(ident.after) then
      Ending(FailedRecord(current, now, RollbackFailedUnchanged, None, CheckOf(ident.after, a.restored, now)),
             [], Err(ErrRollbackFailedUnchanged))
    else
      Ending(failed, [], Err(ErrRollbackAmbiguous))
  }

  // ----- plan -----

  /** What the caller asks, and what the adapter's plan for it looks like. */
  datatype PlanRequest = PlanRequest(
    key: KeyArg, adapter: nat, target: nat, request: Hash, authority: nat)

  /** `planBound` says that the adapter's plan is bound to the baseline, the capability and the request. */
  datatype PlanAnswers = PlanAnswers(before: Option<Seen>, planBound: bool, after: Hash, details: nat)

  /** Every ChangeSet directory holds a whole, gap-free history. */
  predicate AllLoadable(d: Disk) {
    forall id <- d.histories :: Loadable(d, id)
  }

  predicate NamedBy(d: Disk, id: nat, key: nat) {
    Loadable(d, id) && Last(d, id).ident.planKey == Some(key)
  }

  /** The ChangeSet that a plan key already names, if any. */
  function FindPlan(d: Disk, key: nat): Result<Option<Record>, Error> {
    if key in d.mappings then
      match d.mappings[key]
      case PlanMapping(id) =>
        if id !in d.histories then Err(ChangeSetNotFound)
        else if !Loadable(d, id) then Err(StateCorrupt)
        else if Last(d, id).ident.planKey != Some(key) then Err(StateCorrupt)
        else Ok(Some(Last(d, id)))
      case _ => Ok(None)
    else if !AllLoadable(d) then Err(StateCorrupt)
    else if exists a <- d.histories, b <- d.histories :: a != b && NamedBy(d, a, key) && NamedBy(d, b, key) then
      Err(StateCorrupt)
    else if exists id <- d.histories :: NamedBy(d, id, key) then
      var id :| id in d.histories && NamedBy(d, id, key);
      Ok(Some(Last(d, id)))
    else Ok(None)
  }

  function PlanCall(w: World, p: PlanRequest, a: PlanAnswers, newId: nat, now: nat): Outcome {
    match p.key
    case MalformedKey => Refuse(InvalidIdempotencyKey)
    case NoKey => PlanNew(w, p, a, newId, now)
    case Key(digest) =>
      match FindPlan(w.disk, digest)
      case Err(e) => Refuse(e)
      case Ok(Some(existing)) =>
        if existing.ident.request != p.request || existing.ident.authority != p.authority
        then Refuse(IdempotencyConflict)
        else Outcome([], Ok(Success(existing, false, true)))
      case Ok(None) => PlanNew(w, p, a, newId, now)
  }

  function PlannedRecord(p: PlanRequest, a: PlanAnswers, newId: nat, now: nat): Record
    requires a.before.Some?
  {
    Record(Identity(newId, newId, now, p.adapter, p.target, p.request, a.before.value.hash,
                    a.before.value.revision, a.after, if p.key.Key? then Some(p.key.digest) else None, p.authority, a.details),
           Planned, now, None, None, None, None)
  }

  function PlanNew(w: World, p: PlanRequest, a: PlanAnswers, newId: nat, now: nat): Outcome {
    if a.before.None? then Refuse(ReadFailed)
    else if !a.planBound then Refuse(InvalidAdapterPlan)
    else if a.before.value.hash == a.after then Refuse(NoChanges)
    else
      var r := PlannedRecord(p, a, newId, now);
      var written :=
        [PutMaterial(newId, Material(p.request, a.before.value.hash, a.before.value.revision)),
         WriteSnapshot(newId, Snapshot(p.adapter, p.target, a.before.value.hash)),
         WriteFirst(r)];
      if !p.key.Key? then Outcome(written, Ok(Success(r, false, true)))
      else if p.key.digest in w.disk.mappings then
        Outcome(written + [RemoveChangeSet(newId), DropMaterial(newId)]
                + (if AllLoadable(w.disk) then [DiscardSnapshot(newId)] else []),
                Err(IdempotencyConflict))
      else Outcome(written + [WriteMapping(p.key.digest, PlanMapping(newId))], Ok(Success(r, false, true)))
  }
}
