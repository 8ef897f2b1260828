/** ChangeSet records, the durable files of the store, and the checks it makes before every append. */
module ChangeSetStore {
  import opened Prelude

  type Hash = nat

  datatype Phase = Planned | Applied | Verified | Failed | RolledBack

  datatype FailureCode =
    | ApplyFailedUnchanged
    | ApplyPreviousAttemptUnchanged
    | ApplyVerificationFailedRecovered
    | ApplyVerificationFailedRecoveryUnproven
    | ApplyAmbiguous
    | RollbackFailedUnchanged
    | RollbackPreviousAttemptUnchanged
    | RollbackAmbiguous

  datatype ReconciliationCode =
    | ApplyReplayReconciled | ApplyErrorReconciled | RollbackReplayReconciled | RollbackErrorReconciled

  datatype Verification = Verification(checkedAt: nat, expected: Hash, actual: Hash, exactMatch: bool)

  /** The fields that no append may change; `details` stands for capability, operation, paths and summary. */
  datatype Identity = Identity(
    id: nat, snapshotId: nat, createdAt: nat, adapter: nat, target: nat, request: Hash,
    before: Hash, revision: Option<nat>, after: Hash, planKey: Option<nat>, authority: nat, details: nat)

  datatype Record = Record(
    ident: Identity, state: Phase, updatedAt: nat,
    appliedHash: Option<Hash>, verification: Option<Verification>,
    failure: Option<FailureCode>, reconciliation: Option<ReconciliationCode>)

  datatype Action = Apply | Rollback

  datatype Mapping = PlanMapping(id: nat) | ActionMapping(action: Action, id: nat) | PublicationMapping

  datatype ClaimName = ClaimName(id: nat, action: Action)

  datatype Snapshot = Snapshot(adapter: nat, target: nat, stateHash: Hash)

  /** `littered` holds the ChangeSet directories in which a crash left a temporary file. */
  datatype Disk = Disk(
    histories: map<nat, seq<Record>>,
    littered: set<nat>,
    claims: map<ClaimName, nat>,
    mappings: map<nat, Mapping>,
    snapshots: map<nat, Snapshot>)

  const MAX_EVENTS := 999_999

  // ----- Record checks -----

  function Checked(expected: Hash, actual: Hash, now: nat): Verification {
    Verification(now, expected, actual, expected == actual)
  }

  predicate Proves(v: Option<Verification>, h: Hash) {
    v.Some? && v.value.expected == h && v.value.actual == h && v.value.exactMatch
  }

  /** What `assertChangeSet` demands of one record. */
  predicate RecordAccepted(r: Record) {
    && r.ident.createdAt <= r.updatedAt
    && (r.verification.Some? ==>
          r.verification.value.exactMatch == (r.verification.value.expected == r.verification.value.actual))
    && (r.state.Applied? || r.state.Verified? ==>
          r.appliedHash.Some? && Proves(r.verification, r.ident.after))
    && (r.state.Failed? ==> r.failure.Some?)
    && (r.state.RolledBack? ==> Proves(r.verification, r.ident.before))
  }

  predicate PhaseStep(from: Phase, to: Phase) {
    match from
    case Planned => to.Planned? || to.Applied? || to.RolledBack? || to.Failed?
    case Applied => to.Applied? || to.Verified? || to.RolledBack? || to.Failed?
    case Verified => to.Verified? || to.RolledBack? || to.Failed?
    case Failed => to.Failed? || to.RolledBack?
    case RolledBack => to.RolledBack?
  }

  /** What `assertChangeSetTransition` demands of two neighbouring records. */
  predicate TransitionAccepted(current: Record, next: Record) {
    && current.ident == next.ident
    && PhaseStep(current.state, next.state)
    && current.updatedAt <= next.updatedAt
    && (current.appliedHash.Some? ==> next.appliedHash == current.appliedHash)
  }

  predicate Loadable(d: Disk, id: nat) {
    id in d.histories && d.histories[id] != [] && id !in d.littered
  }

  function Last(d: Disk, id: nat): Record
    requires Loadable(d, id)
  {
    d.histories[id][|d.histories[id]| - 1]
  }

  predicate AppendAccepted(d: Disk, r: Record) {
    && Loadable(d, r.ident.id)
    && RecordAccepted(r)
    && TransitionAccepted(Last(d, r.ident.id), r)
    && |d.histories[r.ident.id]| < MAX_EVENTS
  }

  // ----- Claims -----

  datatype Error =
    | ConcurrentOperation
    | ChangeSetNotFound | StateCorrupt | AppendRefused
    | IdempotencyKeyRequired | InvalidIdempotencyKey | IdempotencyConflict
    | ChangeSetNotApplicable | PlanMaterialUnavailable | PlanMaterialMismatch | SnapshotMismatch
    | ReadFailed | InvalidAdapterPlan | NoChanges
    | StaleTarget | StaleRevision
    | RecoveryRequired
    | AppliedWithoutClaim | RolledBackWithoutClaim
    | AmbiguousState | VerificationFailed
    | ErrApplyAmbiguous | ErrApplyFailedUnchanged | ErrApplyVerificationFailed
    | ErrRollbackAmbiguous | ErrRollbackFailedUnchanged

  datatype Attempt = Unclaimed | Replay

  /** A caller may omit the key or send one that is too short, too long or padded. */
  datatype KeyArg = NoKey | MalformedKey | Key(digest: nat)

  function AttemptStatus(d: Disk, key: nat, action: Action, id: nat): Result<Attempt, Error> {
    var name := ClaimName(id, action);
    if name in d.claims then
      if d.claims[name] == key then Ok(Replay) else Err(RecoveryRequired)
    else if key in d.mappings && d.mappings[key] != ActionMapping(action, id) then Err(IdempotencyConflict)
    else Ok(Unclaimed)
  }
}
