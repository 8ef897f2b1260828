/** How long a plan is found under its key, and how a plan that a crash left without its key can be lost. */
module ChangeSetPlans {
  import opened Prelude
  import opened ChangeSetStore
  import opened ChangeSetCalls
  import opened ChangeSetInvariant
  import opened ChangeSetSafety
  import opened ChangeSetOutcomes
  import opened ChangeSetRuns
  import opened ChangeSetGuarantees
  import opened ChangeSetRoundTrip
  import opened ChangeSetDrift

  predicate NamedPlan(d: Disk, key: nat, id: nat) {
    key in d.mappings && d.mappings[key] == PlanMapping(id)
  }

  // ----- When a plan is found -----

  /**
   A journal that carries a plan key is what the key finds, if and only if it can be read and the key names
   it, or names nothing yet while every journal can be read.
   */
  lemma PlanIsFoundExactly(d: Disk, key: nat, id: nat)
    requires DiskInv(d) && HasPlanKey(d, id, key)
    ensures Loadable(d, id) && FindPlan(d, key) == Ok(Some(Last(d, id))) <==>
            Loadable(d, id) && (NamedPlan(d, key, id) || (key !in d.mappings && AllLoadable(d)))
  {
    if Loadable(d, id) {
      CarriedIsNamed(d, key, id);
      if key in d.mappings {
        MappedPlan(d, key, id);
      } else if AllLoadable(d) {
        UnboundPlan(d, key, id);
      }
    }
  }

  lemma MappedPlan(d: Disk, key: nat, id: nat)
    requires HistoriesFine(d) && Loadable(d, id) && NamedBy(d, id, key) && key in d.mappings
    ensures FindPlan(d, key) == Ok(Some(Last(d, id))) <==> NamedPlan(d, key, id)
  {
    hide AllLoadable, RecordAccepted, HistoriesFine;
    LastFine(d, id);
    if d.mappings[key].PlanMapping? && Loadable(d, d.mappings[key].id) {
      LastFine(d, d.mappings[key].id);
    }
  }

  lemma UnboundPlan(d: Disk, key: nat, id: nat)
    requires HistoriesFine(d) && PlanKeysUnique(d) && AllLoadable(d) && NamedBy(d, id, key) && key !in d.mappings
    ensures FindPlan(d, key) == Ok(Some(Last(d, id)))
  {
    hide HistoriesFine;
    forall a, b | a in d.histories && b in d.histories && NamedBy(d, a, key) && NamedBy(d, b, key)
      ensures a == b
    {
      NamedIsCarried(d, key, a);
      NamedIsCarried(d, key, b);
    }
    assert id in d.histories && NamedBy(d, id, key);
  }

  // ----- A key keeps its meaning -----

  /** What a key is bound to it stays bound to, and a plan that it names keeps its journal. */
  predicate Bound(d: Disk, t: Disk, key: nat)
    requires key in d.mappings
  {
    && key in t.mappings && t.mappings[key] == d.mappings[key]
    && (d.mappings[key].PlanMapping? && d.mappings[key].id in d.histories ==>
          d.mappings[key].id in t.histories && d.histories[d.mappings[key].id] <= t.histories[d.mappings[key].id])
  }

  lemma EffectKeepsKey(w: World, e: Effect, key: nat)
    requires EffectSafe(w, e) && key in w.disk.mappings
    ensures Bound(w.disk, Do(w, e).disk, key)
  {
    hide RecordFine, RecordAccepted, TransitionAccepted, SnapshotBound, BackedBy, HasPlanKey, MaterialMatches;
  }

  lemma LitterKeepsKey(w: World, e: Effect, cut: Cut, key: nat)
    requires EffectSafe(w, e) && key in w.disk.mappings
    ensures Bound(w.disk, Litter(w.disk, e, cut), key)
  {
    hide EffectSafe, Litter;
    LitterDisk(w, e, cut);
    EffectKeepsKey(w, e, key);
  }

  lemma StepKeepsKey(s: State, e: Event, key: nat)
    requires Inv(s) && key in s.disk.mappings
    ensures Bound(s.disk, Step(s, e).disk, key)
  {
    hide Do, EffectSafe, Litter, BaseInv, VaultBinds, Safe, Within, Apart, Perform, Undo;
    if (e.Advance? || e.Crash? || e.Fail?) && Working(s, e.pid) {
      assert ProcessInv(s, e.pid);
      SafeTail(View(s, e.pid), s.procs[e.pid].pending);
      EffectKeepsKey(View(s, e.pid), s.procs[e.pid].pending[0], key);
      if e.Crash? || e.Fail? {
        LitterKeepsKey(View(s, e.pid), s.procs[e.pid].pending[0], e.cut, key);
      }
    }
  }

  /** Over any run a bound key keeps its meaning, and the journal of the plan it names only grows. */
  lemma {:induction false} KeysArePermanent(first: seq<Event>, more: seq<Event>, key: nat)
    requires key in Run(INIT, first).disk.mappings
    ensures Bound(Run(INIT, first).disk, Run(INIT, first + more).disk, key)
    decreases |more|
  {
    hide Run, Inv, Step;
    if more == [] {
      assert first + more == first;
    } else {
      var front := more[..|more| - 1];
      KeysArePermanent(first, front, key);
      ReachableInv(first + front);
      RunSplits(INIT, first, more);
      StepKeepsKey(Run(INIT, first + front), more[|more| - 1], key);
    }
  }

  /** What a plan call under a key answers when the key names the ChangeSet `id`. */
  function Answer(d: Disk, id: nat, p: PlanRequest): Outcome {
    if !Loadable(d, id) then Refuse(StateCorrupt)
    else if Last(d, id).ident.request == p.request && Last(d, id).ident.authority == p.authority
    then Outcome([], Ok(Success(Last(d, id), false, true)))
    else Refuse(IdempotencyConflict)
  }

  /**
   Once a plan has its key, every later plan call under that key, by any process and after any run, finds that
   ChangeSet with the identity it was planned with, writes nothing, and is refused only for another request or a torn journal.
   */
  lemma PlanIsFoundForGood(first: seq<Event>, more: seq<Event>, key: nat, id: nat, pid: nat,
                           p: PlanRequest, a: PlanAnswers, newId: nat, now: nat)
    requires NamedPlan(Run(INIT, first).disk, key, id) && p.key == Key(key) && pid in Run(INIT, first + more).procs
    ensures var s, t := Run(INIT, first), Run(INIT, first + more);
            && PlanCall(View(t, pid), p, a, newId, now) == Answer(t.disk, id, p)
            && HasPlanKey(s.disk, id, key) && HasPlanKey(t.disk, id, key)
            && (Loadable(t.disk, id) ==> Last(t.disk, id).ident == s.disk.histories[id][0].ident)
  {
    hide Run, Inv, PlanNew, Bound;
    var s, t := Run(INIT, first), Run(INIT, first + more);
    ReachableInv(first);
    ReachableInv(first + more);
    KeysArePermanent(first, more, key);
    NamedIsThere(s, key, id);
    NamedIsThere(t, key, id) by { BoundNames(s.disk, t.disk, key, id); }
    BoundNames(s.disk, t.disk, key, id);
    FoundThere(t.disk, key, id, p);
    if Loadable(t.disk, id) { LastIdentity(t.disk, id); }
  }

  lemma NamedIsThere(s: State, key: nat, id: nat)
    requires Inv(s) && NamedPlan(s.disk, key, id)
    ensures HasPlanKey(s.disk, id, key) && HistoriesFine(s.disk)
  {
    hide ProcessInv, HolderApart, Budget, IdsUsed, HasPlanKey, HistoriesFine;
  }

  lemma BoundNames(d: Disk, t: Disk, key: nat, id: nat)
    requires NamedPlan(d, key, id) && Bound(d, t, key) && HasPlanKey(d, id, key)
    ensures NamedPlan(t, key, id)
    ensures id in t.histories && t.histories[id] != [] && t.histories[id][0] == d.histories[id][0]
  {
  }

  lemma LastIdentity(d: Disk, id: nat)
    requires HistoriesFine(d) && Loadable(d, id)
    ensures Last(d, id).ident == d.histories[id][0].ident
  {
    HistoryAt(d, id);
    SameIdentity(d.histories[id], id, |d.histories[id]| - 1);
  }

  lemma FoundThere(d: Disk, key: nat, id: nat, p: PlanRequest)
    requires HistoriesFine(d) && NamedPlan(d, key, id) && HasPlanKey(d, id, key) && p.key == Key(key)
    ensures FindPlan(d, key) == if Loadable(d, id) then Ok(Some(Last(d, id))) else Err(StateCorrupt)
  {
    hide HistoriesFine, AllLoadable;
    if Loadable(d, id) { CarriedIsNamed(d, key, id); }
  }

  // ----- A plan that loses its key -----

  function Keyed(): PlanRequest { PlanRequest(Key(7), 0, 0, 0, 0) }

  function First(): Record { PlannedRecord(Keyed(), Offered(), 0, 0) }

  function CutShort(): seq<Event> {
    [Start(0)] + [Enter(0, PlanChange(Keyed(), Offered(), 0), 0)] + Steps(0, 3) + [Crash(0, Between)] + [ClearLock] + [BindElsewhere(7)]
  }

  lemma KeyedPlanSteps()
    ensures PlanCall(EMPTY, Keyed(), Offered(), 0, 0).effects == PlanSteps(First()) + [WriteMapping(7, PlanMapping(0))]
    ensures DoAll(EMPTY, PlanSteps(First())).disk
         == EMPTY_DISK.(histories := map[0 := [First()]], snapshots := map[0 := PlannedSnapshot(First())])
    ensures DoAll(EMPTY, PlanSteps(First())).dispatched == []
  {
    PlanStepsSafe(EMPTY, First());
    PlanStepsSendNothing(EMPTY, First());
    hide DoAll;
    assert PlanCall(EMPTY, Keyed(), Offered(), 0, 0) == PlanNew(EMPTY, Keyed(), Offered(), 0, 0) by { NothingNamed(); }
    PlanNewSteps(EMPTY, Keyed(), Offered(), 0, 0);
    assert PlanClosing(EMPTY, First()) == [WriteMapping(7, PlanMapping(0))];
  }

  lemma NothingNamed()
    ensures FindPlan(EMPTY.disk, 7) == Ok(None)
  {
    assert AllLoadable(EMPTY_DISK);
  }

  lemma PlanStepsSendNothing(w: World, r: Record)
    ensures DoAll(w, PlanSteps(r)).dispatched == w.dispatched
  {
    hide DoAll;
    var a, b, c := PutMaterial(r.ident.id, PlannedMaterial(r)), WriteSnapshot(r.ident.id, PlannedSnapshot(r)), WriteFirst(r);
    DoNothing(w);
    DoSnoc(w, [], a);
    DoSnoc(w, [a], b);
    DoSnoc(w, [a, b], c);
    assert [] + [a] == [a] && [a] + [b] == [a, b] && [a, b] + [c] == PlanSteps(r);
  }

  /** The state after the crash, the operator's clearing of the lock, and a publication under the same key. */
  function LostState(): State {
    State(EMPTY_DISK.(histories := map[0 := [First()]], snapshots := map[0 := PlannedSnapshot(First())],
                      mappings := map[7 := PublicationMapping]), [], map[], None, {0})
  }

  lemma CutShortEnds()
    ensures Run(INIT, CutShort()) == LostState()
  {
    hide Step, DoAll, PlanCall, PlanSteps, PlannedSnapshot, First;
    KeyedPlanSteps();
    Started();
    var plan := PlanChange(Keyed(), Offered(), 0);
    var s0 := Run(INIT, [Start(0)]);
    var es := PlanSteps(First()) + [WriteMapping(7, PlanMapping(0))];
    var entered := EnterStep(s0, 0, plan, 0);
    RunSnoc(INIT, [Start(0)], Enter(0, plan, 0));
    assert Step(s0, Enter(0, plan, 0)) == entered by { EnterIs(s0, plan); }
    var w := DoAll(EMPTY, PlanSteps(First()));
    assert View(s0, 0) == EMPTY;
    assert entered.procs[0].pending == es;
    RunSplit(INIT, [Start(0)] + [Enter(0, plan, 0)], Steps(0, 3));
    assert |PlanSteps(First())| == 3 by { ThreeLong(); }
    StepsDo(entered, 0, 3);
    assert es[..3] == PlanSteps(First()) && es[3..] == [WriteMapping(7, PlanMapping(0))];
    var cut := With(entered, 0, w, es[3..]);
    var front := [Start(0)] + [Enter(0, plan, 0)] + Steps(0, 3);
    RunSnoc(INIT, front, Crash(0, Between));
    RunSnoc(INIT, front + [Crash(0, Between)], ClearLock);
    RunSnoc(INIT, front + [Crash(0, Between)] + [ClearLock], BindElsewhere(7));
    LastThree(cut, w);
  }

  lemma ThreeLong()
    ensures |PlanSteps(First())| == 3
  {
  }

  lemma EnterIs(s: State, plan: Call)
    requires 0 in s.procs && s.lock.None? && plan.PlanChange? && plan.newId !in s.used
    ensures Step(s, Enter(0, plan, 0)) == EnterStep(s, 0, plan, 0)
  {
    hide EnterStep;
  }

  lemma LastThree(cut: State, w: World)
    requires w.disk == EMPTY_DISK.(histories := map[0 := [First()]], snapshots := map[0 := PlannedSnapshot(First())])
    requires w.dispatched == [] && cut.disk == w.disk && cut.dispatched == [] && cut.used == {0} && cut.lock == Some(0)
    requires cut.procs.Keys == {0}
    ensures Step(Step(Step(cut, Crash(0, Between)), ClearLock), BindElsewhere(7)) == LostState()
  {
    hide First, PlannedSnapshot;
    assert cut.procs - {0} == map[];
  }

  /**
   A process dies between the first record of a keyed plan and its key, and a publication takes the key: the
   plan is there, whole and PLANNED, but no later call under that key ever finds it.
   */
  lemma CrashLosesPlanKey(more: seq<Event>)
    ensures var s, t := Run(INIT, CutShort()), Run(INIT, CutShort() + more);
            && Loadable(s.disk, 0) && Last(s.disk, 0).state.Planned? && HasPlanKey(s.disk, 0, 7)
            && FindPlan(s.disk, 7) == Ok(None) && FindPlan(t.disk, 7) == Ok(None)
  {
    hide Run, CutShort, AllLoadable;
    CutShortEnds();
    KeysArePermanent(CutShort(), more, 7);
  }
}
