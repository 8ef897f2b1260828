/** What holds in every state that any run of the ChangeSet machine can reach. */
module ChangeSetGuarantees {
  import opened Prelude
  import opened ChangeSetStore
  import opened ChangeSetCalls
  import opened ChangeSetInvariant
  import opened ChangeSetOutcomes
  import opened ChangeSetRuns

  /** Over every run each ChangeSet is written at most once by apply, recovery and rollback each, and never unclaimed. */
  lemma AtMostOneWrite(events: seq<Event>, id: nat, write: RemoteWrite)
    ensures var s := Run(INIT, events);
            && Count(s.dispatched, id, write) <= 1
            && (Count(s.dispatched, id, write) == 1 ==> ClaimName(id, ActionOf(write)) in s.disk.claims)
  {
    hide Run, Count, DiskInv, ProcessInv, HolderApart;
    ReachableInv(events);
    var s := Run(INIT, events);
    assert WriteBudget(World(s.disk, map[], s.dispatched), id, write);
  }

  /** Every journal is a gap-free legal path with constant identity, and no outcome lacks its claim. */
  lemma JournalsAreLegal(events: seq<Event>, id: nat)
    requires id in Run(INIT, events).disk.histories
    ensures var d := Run(INIT, events).disk;
            && HistoryFine(d.histories[id], id)
            && (forall k :: 0 <= k < |d.histories[id]| ==>
                  BackedBy(d.histories[id][k], id, d.claims) && d.histories[id][k].ident == d.histories[id][0].ident)
  {
    hide Run, HistoryFine, BackedBy, Budget, ProcessInv, HolderApart, ClaimsNamed, PlansNamed, PlanKeysUnique, SnapshotsBind;
    ReachableInv(events);
    var d := Run(INIT, events).disk;
    forall k | 0 <= k < |d.histories[id]|
      ensures BackedBy(d.histories[id][k], id, d.claims) && d.histories[id][k].ident == d.histories[id][0].ident
    {
      SameIdentity(d.histories[id], id, k);
    }
  }

  /** Two processes never have steps outstanding at the same time. */
  lemma OneCallAtATime(events: seq<Event>, p: nat, q: nat)
    requires p in Run(INIT, events).procs && q in Run(INIT, events).procs
    requires Run(INIT, events).procs[p].pending != [] && Run(INIT, events).procs[q].pending != []
    ensures p == q
  {
    hide Run, DiskInv, Budget, VaultBinds, Safe, Within, Apart, BaseInv;
    ReachableInv(events);
    var s := Run(INIT, events);
    assert ProcessInv(s, p) && ProcessInv(s, q);
  }

  predicate NoDispatch(es: seq<Effect>) {
    forall k :: 0 <= k < |es| ==> !es[k].Dispatch?
  }

  lemma DispatchIsSent(o: Outcome, k: nat)
    requires k < |o.effects| && o.effects[k].Dispatch?
    ensures Sends(o, o.effects[k].id, o.effects[k].write)
  {
    assert o.effects[k] == Dispatch(o.effects[k].id, o.effects[k].write);
  }

  lemma SilentList(o: Outcome)
    requires forall id, write :: !Sends(o, id, write)
    ensures NoDispatch(o.effects)
  {
    hide Sends;
    forall k | 0 <= k < |o.effects| ensures !o.effects[k].Dispatch? {
      if o.effects[k].Dispatch? { DispatchIsSent(o, k); }
    }
  }

  /** In any reachable state, a call that finds its claim already taken sends nothing. */
  lemma ClaimedCallsSendNothing(events: seq<Event>, pid: nat, c: Call, now: nat)
    requires pid in Run(INIT, events).procs
    requires c.ApplyChange? ==> ClaimName(c.id, Apply) in Run(INIT, events).disk.claims
    requires c.RollbackChange? ==> ClaimName(c.id, Rollback) in Run(INIT, events).disk.claims
    ensures NoDispatch(Perform(View(Run(INIT, events), pid), c, now).effects)
  {
    hide Run, Inv, WorldInv, ApplyCall, RollbackCall, PlanCall, VerifyCall, Sends, NoDispatch;
    ReachableInv(events);
    var w := View(Run(INIT, events), pid);
    ViewInv(Run(INIT, events), pid);
    forall id, write ensures !Sends(Perform(w, c, now), id, write) {
      match c
      case PlanChange(p, a, newId) => PlanAndVerifyNeverSend(w, p, a, newId, 0, None, now, id, write);
      case VerifyChange(target, actual) =>
        PlanAndVerifyNeverSend(w, PlanRequest(NoKey, 0, 0, 0, 0), PlanAnswers(None, false, 0, 0), 0, target, actual,
                               now, id, write);
      case ApplyChange(target, key, dryRun, a) => ApplySendsExactly(w, target, key, dryRun, a, now, id, write);
      case RollbackChange(target, key, dryRun, a) => RollbackSendsExactly(w, target, key, dryRun, a, now, id, write);
    }
    SilentList(Perform(w, c, now));
  }

  /** In any reachable state no call reports a missing claim or material that contradicts the journal. */
  lemma NoCorruptionIsReported(events: seq<Event>, pid: nat, c: Call, now: nat)
    requires pid in Run(INIT, events).procs
    ensures var result := Perform(View(Run(INIT, events), pid), c, now).result;
            && (c.ApplyChange? ==> result !in {Err(AppliedWithoutClaim), Err(PlanMaterialMismatch)})
            && (c.RollbackChange? ==> result !in {Err(RolledBackWithoutClaim), Err(SnapshotMismatch)})
  {
    hide Run, Inv, WorldInv, ApplyCall, RollbackCall, PlanCall, VerifyCall;
    ReachableInv(events);
    var w := View(Run(INIT, events), pid);
    ViewInv(Run(INIT, events), pid);
    if c.ApplyChange? {
      ApplyNeverFindsCorruption(w, c.id, c.key, c.dryRun, c.applied, now);
    } else if c.RollbackChange? {
      RollbackNeverFindsCorruption(w, c.id, c.key, c.dryRun, c.rolledBack, now);
    }
  }

  // ----- Nothing durable is taken back -----

  /** The claim, its key and the journal behind it are still there; the journal may have grown. */
  predicate Kept(d: Disk, t: Disk, name: ClaimName) {
    && (name in d.claims ==> name in t.claims && t.claims[name] == d.claims[name])
    && (name.id in d.histories ==> name.id in t.histories && d.histories[name.id] <= t.histories[name.id])
  }

  lemma EffectContinues(w: World, e: Effect, name: ClaimName)
    requires ClaimsNamed(w.disk) && EffectSafe(w, e) && name in w.disk.claims
    ensures Kept(w.disk, Do(w, e).disk, name)
  {
    hide RecordFine, RecordAccepted, TransitionAccepted, SnapshotBound, BackedBy, HasPlanKey, MaterialMatches;
    if e.RemoveChangeSet? {
      assert ClaimName(name.id, name.action) == name;
    }
  }

  lemma LitterContinues(w: World, e: Effect, cut: Cut, name: ClaimName)
    requires ClaimsNamed(w.disk) && EffectSafe(w, e) && name in w.disk.claims
    ensures Kept(w.disk, Litter(w.disk, e, cut), name)
  {
    hide EffectSafe, Litter;
    LitterDisk(w, e, cut);
    EffectContinues(w, e, name);
  }

  lemma StepContinues(s: State, e: Event, name: ClaimName)
    requires Inv(s) && name in s.disk.claims
    ensures Kept(s.disk, Step(s, e).disk, name)
  {
    hide Do, EffectSafe, Litter, HistoriesFine, ClaimsBack, ClaimsNamed, PlansNamed, PlanKeysUnique, SnapshotsBind,
    Budget, VaultBinds, Safe, Within, Apart, Perform;
    if (e.Advance? || e.Crash? || e.Fail?) && Working(s, e.pid) {
      assert ProcessInv(s, e.pid);
      SafeTail(View(s, e.pid), s.procs[e.pid].pending);
      EffectContinues(View(s, e.pid), s.procs[e.pid].pending[0], name);
      if e.Crash? || e.Fail? {
        LitterContinues(View(s, e.pid), s.procs[e.pid].pending[0], e.cut, name);
      }
    }
  }

  lemma RunSplits(s: State, first: seq<Event>, more: seq<Event>)
    requires more != []
    ensures Run(s, first + more) == Step(Run(s, first + more[..|more| - 1]), more[|more| - 1])
  {
    assert (first + more)[..|first + more| - 1] == first + more[..|more| - 1];
  }

  /** A claim, its key and the journal behind it survive everything that happens later; the journal only grows. */
  lemma {:induction false} ClaimsArePermanent(first: seq<Event>, more: seq<Event>, name: ClaimName)
    requires name in Run(INIT, first).disk.claims
    ensures Kept(Run(INIT, first).disk, Run(INIT, first + more).disk, name)
    decreases |more|
  {
    hide Run, Inv, Step;
    if more == [] {
      assert first + more == first;
    } else {
      var front := more[..|more| - 1];
      ClaimsArePermanent(first, front, name);
      ReachableInv(first + front);
      RunSplits(INIT, first, more);
      StepContinues(Run(INIT, first + front), more[|more| - 1], name);
    }
  }

  /** A recorded rollback is final: from then on the ChangeSet stays rolled back. */
  lemma {:induction false} RollbackIsFinal(h: seq<Record>, id: nat, j: nat, k: nat)
    requires HistoryFine(h, id) && j <= k < |h| && h[j].state.RolledBack?
    ensures h[k].state.RolledBack?
    decreases k
  {
    hide RecordFine;
    if j < k {
      RollbackIsFinal(h, id, j, k - 1);
      assert TransitionAccepted(h[k - 1], h[k]);
    }
  }

  /** The applied hash is written at most once. */
  lemma {:induction false} AppliedHashIsFinal(h: seq<Record>, id: nat, j: nat, k: nat)
    requires HistoryFine(h, id) && j <= k < |h| && h[j].appliedHash.Some?
    ensures h[k].appliedHash == h[j].appliedHash
    decreases k
  {
    hide RecordFine;
    if j < k {
      AppliedHashIsFinal(h, id, j, k - 1);
      assert TransitionAccepted(h[k - 1], h[k]);
    }
  }
}
