/** What each engine call answers, to whom, and how its answer agrees with what it journaled. */
module ChangeSetAnswers {
  import opened Prelude
  import opened ChangeSetStore
  import opened ChangeSetCalls
  import opened ChangeSetInvariant
  import opened ChangeSetSafety
  import opened ChangeSetOutcomes
  import opened ChangeSetRuns
  import opened ChangeSetGuarantees
  import opened ChangeSetDrift

  // ----- Whose key -----

  /** The action was claimed, under this key. */
  predicate Own(d: Disk, key: nat, action: Action, id: nat) {
    ClaimName(id, action) in d.claims && d.claims[ClaimName(id, action)] == key
  }

  predicate Foreign(d: Disk, key: nat, action: Action, id: nat) {
    ClaimName(id, action) in d.claims && d.claims[ClaimName(id, action)] != key
  }

  /** The action is unclaimed, and the key means nothing else. */
  predicate Free(d: Disk, key: nat, action: Action, id: nat) {
    ClaimName(id, action) !in d.claims && (key in d.mappings ==> d.mappings[key] == ActionMapping(action, id))
  }

  predicate Taken(d: Disk, key: nat, action: Action, id: nat) {
    ClaimName(id, action) !in d.claims && key in d.mappings && d.mappings[key] != ActionMapping(action, id)
  }

  /** A claimed action answers its own key only: under any other one nothing happens and recovery is asked for. */
  lemma ForeignKeyIsRefused(w: World, id: nat, key: nat, a: ApplyAnswers, ra: RollbackAnswers, now: nat)
    requires Loadable(w.disk, id)
    ensures Foreign(w.disk, key, Apply, id) ==> ApplyCall(w, id, Key(key), false, a, now) == Refuse(RecoveryRequired)
    ensures Foreign(w.disk, key, Rollback, id) ==> RollbackCall(w, id, Key(key), false, ra, now) == Refuse(RecoveryRequired)
  {
    hide ApplyReplay, ApplyOnce, RollbackReplay, RollbackOnce, Finish, SnapshotBound;
  }

  /** A key that already means something else is refused. */
  lemma TakenKeyIsRefused(w: World, id: nat, key: nat, a: ApplyAnswers, ra: RollbackAnswers, now: nat)
    requires Loadable(w.disk, id)
    ensures Taken(w.disk, key, Apply, id) ==> ApplyCall(w, id, Key(key), false, a, now) == Refuse(IdempotencyConflict)
    ensures Taken(w.disk, key, Rollback, id) ==> RollbackCall(w, id, Key(key), false, ra, now) == Refuse(IdempotencyConflict)
  {
    hide ApplyReplay, ApplyOnce, RollbackReplay, RollbackOnce, Finish, SnapshotBound;
  }

  /** The claim that stands after the steps of a call. */
  predicate ClaimedBy(w: World, es: seq<Effect>, id: nat, action: Action, key: nat) {
    Own(DoAll(w, es).disk, key, action, id)
  }

  lemma OwnStays(w: World, e: Ending, id: nat, action: Action, key: nat)
    requires Own(w.disk, key, action, id) && Closing(e.closing)
    ensures ClaimedBy(w, Finish(w.disk, [], e).effects, id, action, key)
  {
    ClosedKeepsClaims(w, [], e);
    hide DoAll, Finish, Closing;
    assert DoAll(w, []) == w by { EmptySafe(w); }
  }

  lemma ClosedKeepsClaims(w: World, sent: seq<Effect>, e: Ending)
    requires Closing(e.closing)
    ensures DoAll(w, Finish(w.disk, sent, e).effects).disk.claims == DoAll(w, sent).disk.claims
  {
    hide AppendAccepted, DoAll;
    DoSnoc(w, sent, Append(e.record));
    var done := sent + [Append(e.record)];
    if e.closing == [] {
      assert done + e.closing == done;
    } else {
      assert done + e.closing == done + [e.closing[0]];
      DoSnoc(w, done, e.closing[0]);
    }
  }

  lemma ClaimIsTaken(w: World, key: nat, action: Action, id: nat)
    ensures Own(DoAll(w, ClaimEffects(w.disk, key, action, id)).disk, key, action, id)
  {
    var claim := WriteClaim(id, action, key);
    hide DoAll;
    if key in w.disk.mappings {
      DoSnoc(w, [], claim);
      assert [] + [claim] == [claim];
      assert ClaimEffects(w.disk, key, action, id) == [claim];
    } else {
      var bind := WriteMapping(key, ActionMapping(action, id));
      DoSnoc(w, [bind], claim);
      assert ClaimEffects(w.disk, key, action, id) == [bind] + [claim];
    }
  }

  lemma SentKeepsClaim(w: World, es: seq<Effect>, id: nat, write: RemoteWrite)
    ensures DoAll(w, es + [Dispatch(id, write)]).disk == DoAll(w, es).disk
  {
    hide DoAll;
    DoSnoc(w, es, Dispatch(id, write));
  }

  lemma ApplyOnceClaims(w: World, id: nat, key: nat, a: ApplyAnswers, now: nat)
    requires Loadable(w.disk, id) && a.seen.Some? && Last(w.disk, id).state.Planned? && Last(w.disk, id).ident.id == id
    ensures var o := ApplyOnce(w.disk, Last(w.disk, id), key, a, now);
            o.result.Ok? ==> ClaimedBy(w, o.effects, id, Apply, key)
  {
    hide DoAll, Finish, Closing, AfterApply, ClaimEffects, Follows, Own;
    var current := Last(w.disk, id);
    AfterApplyFollows(current, a, now);
    var claim := ClaimEffects(w.disk, key, Apply, id);
    ClaimIsTaken(w, key, Apply, id);
    SentKeepsClaim(w, claim, id, ApplyWrite);
    SentKeepsClaim(w, claim + [Dispatch(id, ApplyWrite)], id, RecoveryRestore);
    assert claim + ([Dispatch(id, ApplyWrite)] + []) == claim + [Dispatch(id, ApplyWrite)];
    assert claim + ([Dispatch(id, ApplyWrite)] + [Dispatch(id, RecoveryRestore)])
        == claim + [Dispatch(id, ApplyWrite)] + [Dispatch(id, RecoveryRestore)];
    ClosedKeepsClaims(w, claim + ApplyWrites(current.ident, a), AfterApply(current, a, now));
    OwnReads(w, id, Apply, key, claim, Finish(w.disk, claim + ApplyWrites(current.ident, a), AfterApply(current, a, now)).effects);
  }

  lemma OwnReads(w: World, id: nat, action: Action, key: nat, claim: seq<Effect>, es: seq<Effect>)
    requires Own(DoAll(w, claim).disk, key, action, id)
    ensures DoAll(w, es).disk.claims == DoAll(w, claim).disk.claims ==> ClaimedBy(w, es, id, action, key)
  {
    hide DoAll;
  }

  /** An apply that succeeds under a key leaves the claim under that very key. */
  lemma ApplySuccessIsOwned(w: World, id: nat, key: KeyArg, a: ApplyAnswers, now: nat)
    requires WorldInv(w) && ApplyCall(w, id, key, false, a, now).result.Ok?
    ensures key.Key? && ClaimedBy(w, ApplyCall(w, id, key, false, a, now).effects, id, Apply, key.digest)
  {
    hide DoAll, Finish, Closing, ApplyReplay, ApplyOnce, RecordAccepted, Follows, ClaimedBy;
    hide ClaimsBack, ClaimsNamed, PlansNamed, PlanKeysUnique, SnapshotsBind, Budget, VaultBinds, HistoriesFine;
    var current := Last(w.disk, id);
    LastFine(w.disk, id);
    StandingClaim(w, id, Apply, key.digest);
    if current.state.Planned? {
      ReplayFollows(current, a.seen.value.hash, now);
      if Own(w.disk, key.digest, Apply, id) { OwnStays(w, ApplyReplay(current, a.seen.value.hash, now), id, Apply, key.digest); }
      ApplyOnceClaims(w, id, key.digest, a, now);
    }
  }

  lemma StandingClaim(w: World, id: nat, action: Action, key: nat)
    ensures Own(w.disk, key, action, id) ==> ClaimedBy(w, [], id, action, key)
  {
  }

  lemma RollbackOnceClaims(w: World, id: nat, key: nat, a: RollbackAnswers, now: nat)
    requires Loadable(w.disk, id) && a.seen.Some? && Last(w.disk, id).ident.id == id
    ensures var o := RollbackOnce(w, Last(w.disk, id), key, a, now);
            o.result.Ok? ==> ClaimedBy(w, o.effects, id, Rollback, key)
  {
    hide DoAll, Finish, Closing, AfterRestore, ClaimEffects, Follows, Own, ClaimedBy;
    var current := Last(w.disk, id);
    RestoreFollows(current, a, now);
    ClosingOne(id);
    var claim := ClaimEffects(w.disk, key, Rollback, id);
    ClaimIsTaken(w, key, Rollback, id);
    SentKeepsClaim(w, claim, id, RollbackRestore);
    var r := RolledBackRecord(current, a.seen.value.hash, None, now);
    var already := Ending(r, [DropMaterial(id)], Ok(Success(r, false, false)));
    ClosedKeepsClaims(w, claim, already);
    ClosedKeepsClaims(w, claim + [Dispatch(id, RollbackRestore)], AfterRestore(current, a, now));
    OwnReads(w, id, Rollback, key, claim, Finish(w.disk, claim, already).effects);
    OwnReads(w, id, Rollback, key, claim,
             Finish(w.disk, claim + [Dispatch(id, RollbackRestore)], AfterRestore(current, a, now)).effects);
  }

  /** The same for rollback. */
  lemma RollbackSuccessIsOwned(w: World, id: nat, key: KeyArg, a: RollbackAnswers, now: nat)
    requires WorldInv(w) && RollbackCall(w, id, key, false, a, now).result.Ok?
    ensures key.Key? && ClaimedBy(w, RollbackCall(w, id, key, false, a, now).effects, id, Rollback, key.digest)
  {
    hide DoAll, Finish, Closing, RollbackReplay, RollbackOnce, RecordAccepted, Follows, ClaimedBy, SnapshotBound;
    hide ClaimsBack, ClaimsNamed, PlansNamed, PlanKeysUnique, SnapshotsBind, Budget, VaultBinds, HistoriesFine;
    var current := Last(w.disk, id);
    LastFine(w.disk, id);
    StandingClaim(w, id, Rollback, key.digest);
    if !current.state.RolledBack? {
      RollbackReplayCloses(current, a.seen.value.hash, now);
      var replay := RollbackReplay(current, a.seen.value.hash, now);
      if Own(w.disk, key.digest, Rollback, id) && replay.Ok? { OwnStays(w, replay.value, id, Rollback, key.digest); }
      RollbackOnceClaims(w, id, key.digest, a, now);
    }
  }

  /** In every reachable state a non-dry success belongs to the key it was called with, from then on for good. */
  lemma SuccessBelongsToItsKey(events: seq<Event>, pid: nat, c: Call, now: nat)
    requires pid in Run(INIT, events).procs
    ensures var w := View(Run(INIT, events), pid);
            var o := Perform(w, c, now);
            && (c.ApplyChange? && !c.dryRun && o.result.Ok? ==>
                  c.key.Key? && ClaimedBy(w, o.effects, c.id, Apply, c.key.digest))
            && (c.RollbackChange? && !c.dryRun && o.result.Ok? ==>
                  c.key.Key? && ClaimedBy(w, o.effects, c.id, Rollback, c.key.digest))
  {
    hide Run, Inv, WorldInv, ApplyCall, RollbackCall, PlanCall, VerifyCall, ClaimedBy;
    ReachableInv(events);
    ViewInv(Run(INIT, events), pid);
    var w := View(Run(INIT, events), pid);
    var o := Perform(w, c, now);
    if c.ApplyChange? && !c.dryRun && o.result.Ok? { ApplySuccessIsOwned(w, c.id, c.key, c.applied, now); }
    if c.RollbackChange? && !c.dryRun && o.result.Ok? { RollbackSuccessIsOwned(w, c.id, c.key, c.rolledBack, now); }
  }

  /** The key under which a call may act. */
  predicate ActsUnder(c: Call, action: Action, id: nat, key: nat) {
    match c
    case ApplyChange(target, k, dryRun, _) => action.Apply? && target == id && k == Key(key) && !dryRun
    case RollbackChange(target, k, dryRun, _) => action.Rollback? && target == id && k == Key(key) && !dryRun
    case _ => false
  }

  /** Over every run: once a call under a key has succeeded, the claim is that key's, whatever happens later. */
  lemma SuccessIsOwnedForGood(events: seq<Event>, pid: nat, c: Call, now: nat, more: seq<Event>,
                              action: Action, id: nat, key: nat)
    requires Enterable(Run(INIT, events), pid, c) && ActsUnder(c, action, id, key)
    requires Perform(View(Run(INIT, events), pid), c, now).result.Ok?
    ensures var n := |Perform(View(Run(INIT, events), pid), c, now).effects|;
            Own(Run(INIT, events + Uninterrupted(pid, c, now, n) + more).disk, key, action, id)
  {
    hide Run, Inv, Perform, DoAll, Uninterrupted;
    var s := Run(INIT, events);
    var o := Perform(View(s, pid), c, now);
    var call := Uninterrupted(pid, c, now, |o.effects|);
    SuccessBelongsToItsKey(events, pid, c, now);
    CallRuns(s, pid, c, now);
    RunSplit(INIT, events, call);
    assert Own(Run(INIT, events + call).disk, key, action, id);
    ClaimsArePermanent(events + call, more, ClaimName(id, action));
  }
}
