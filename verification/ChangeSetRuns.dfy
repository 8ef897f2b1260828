/**
 Any number of server processes share one state directory. Calls exclude each
 other through the lock file; a process may die between two durable writes or in
 the middle of one, which loses its vault and leaves its lock behind. A write may
 also fail and end the call alone: the process, its vault and its lock live on.
 */
module ChangeSetRuns {
  import opened Prelude
  import opened ChangeSetStore
  import opened ChangeSetCalls
  import opened ChangeSetInvariant
  import opened ChangeSetSafety
  import opened ChangeSetOutcomes

  datatype Call =
    | PlanChange(request: PlanRequest, plan: PlanAnswers, newId: nat)
    | ApplyChange(id: nat, key: KeyArg, dryRun: bool, applied: ApplyAnswers)
    | VerifyChange(id: nat, actual: Option<Seen>)
    | RollbackChange(id: nat, key: KeyArg, dryRun: bool, rolledBack: RollbackAnswers)

  function Perform(w: World, c: Call, now: nat): Outcome {
    match c
    case PlanChange(p, a, newId) => PlanCall(w, p, a, newId, now)
    case ApplyChange(id, key, dryRun, a) => ApplyCall(w, id, key, dryRun, a, now)
    case VerifyChange(id, actual) => VerifyCall(w, id, actual, now)
    case RollbackChange(id, key, dryRun, a) => RollbackCall(w, id, key, dryRun, a, now)
  }

  /** A process holds its vault and the steps that its current call has still to take. */
  datatype Process = Process(vault: Vault, pending: seq<Effect>)

  /** `lock` names the process whose call created the lock file; `used` holds every identifier drawn so far. */
  datatype State = State(
    disk: Disk, dispatched: seq<(nat, RemoteWrite)>, procs: map<nat, Process>, lock: Option<nat>, used: set<nat>)

  datatype Cut = Between | BeforeLink | AfterLink

  datatype Event =
    | Start(pid: nat)
    | Enter(pid: nat, call: Call, now: nat)
    | Advance(pid: nat)
    | Leave(pid: nat)
    | Fail(pid: nat, cut: Cut, unreferenced: bool)
    | Crash(pid: nat, cut: Cut)
    | ClearLock
    | BindElsewhere(key: nat)      // a publication takes an idempotency key

  function View(s: State, pid: nat): World
    requires pid in s.procs
  {
    World(s.disk, s.procs[pid].vault, s.dispatched)
  }

  const EMPTY_DISK := Disk(map[], {}, map[], map[], map[])

  const INIT := State(EMPTY_DISK, [], map[], None, {})

  // ----- Steps -----

  predicate Enterable(s: State, pid: nat, c: Call) {
    pid in s.procs && s.lock.None? && (c.PlanChange? ==> c.newId !in s.used)
  }

  predicate Working(s: State, pid: nat) {
    pid in s.procs && s.lock == Some(pid) && s.procs[pid].pending != []
  }

  function EnterStep(s: State, pid: nat, c: Call, now: nat): State
    requires pid in s.procs
  {
    s.(lock := Some(pid),
    procs := s.procs[pid := s.procs[pid].(pending := Perform(View(s, pid), c, now).effects)],
    used := if c.PlanChange? then s.used + {c.newId} else s.used)
  }

  function AdvanceStep(s: State, pid: nat): State
    requires pid in s.procs && s.procs[pid].pending != []
  {
    var p := s.procs[pid];
    var w := Do(View(s, pid), p.pending[0]);
    s.(disk := w.disk, dispatched := w.dispatched, procs := s.procs[pid := Process(w.vault, p.pending[1..])])
  }

  /** A journal write that was cut off leaves its temporary file in the ChangeSet directory. */
  function Litter(d: Disk, e: Effect, cut: Cut): Disk {
    if cut.Between? || !(e.Append? || e.WriteFirst?) then d
    else
      var id := e.record.ident.id;
      var torn := d.(littered := d.littered + {id});
      if cut.AfterLink? then Do(World(torn, map[], []), e).disk
      else if e.WriteFirst? then torn.(histories := torn.histories[id := []])
      else torn
  }

  /** What a failed step still leads to: a plan takes itself back, any other call ends where it stands. */
  function Undo(e: Effect, unreferenced: bool): seq<Effect> {
    match e
    case WriteSnapshot(id, _) => [DropMaterial(id)]
    case WriteFirst(r) => TakeBack(r.ident.id, unreferenced)
    case WriteMapping(_, mapping) => if mapping.PlanMapping? then TakeBack(mapping.id, unreferenced) else []
    case RemoveChangeSet(id) => [DropMaterial(id)]
    case _ => []
  }

  function TakeBack(id: nat, unreferenced: bool): seq<Effect> {
    [RemoveChangeSet(id)] + ([DropMaterial(id)] + (if unreferenced then [DiscardSnapshot(id)] else []))
  }

  /** The step in hand fails; its temporary file may stay behind. */
  function FailStep(s: State, pid: nat, cut: Cut, unreferenced: bool): State
    requires Working(s, pid)
  {
    var e := s.procs[pid].pending[0];
    s.(disk := if e.Append? then Litter(s.disk, e, cut) else s.disk,
    procs := s.procs[pid := s.procs[pid].(pending := Undo(e, unreferenced))])
  }

  function BindStep(s: State, key: nat): State {
    s.(disk := s.disk.(mappings := s.disk.mappings[key := PublicationMapping]))
  }

  function CrashStep(s: State, pid: nat, cut: Cut): State
    requires pid in s.procs
  {
    var left := s.(procs := s.procs - {pid});
    if Working(s, pid) then left.(disk := Litter(s.disk, s.procs[pid].pending[0], cut)) else left
  }

  /** An event that is not possible leaves the state as it is. */
  function Step(s: State, e: Event): State {
    match e
    case Start(pid) =>
      if pid in s.procs || s.lock == Some(pid) then s else s.(procs := s.procs[pid := Process(map[], [])])
    case Enter(pid, c, now) => if Enterable(s, pid, c) then EnterStep(s, pid, c, now) else s
    case Advance(pid) => if Working(s, pid) then AdvanceStep(s, pid) else s
    case Leave(pid) =>
      if pid in s.procs && s.lock == Some(pid) && s.procs[pid].pending == [] then s.(lock := None) else s
    case Crash(pid, cut) => if pid in s.procs then CrashStep(s, pid, cut) else s
    case Fail(pid, cut, unreferenced) => if Working(s, pid) then FailStep(s, pid, cut, unreferenced) else s
    case ClearLock => if s.lock.Some? && s.lock.value !in s.procs then s.(lock := None) else s
    case BindElsewhere(key) => if s.lock.None? && key !in s.disk.mappings then BindStep(s, key) else s
  }

  function Run(s: State, events: seq<Event>): State
    decreases |events|
  {
    if events == [] then s else Step(Run(s, events[..|events| - 1]), events[|events| - 1])
  }

  // ----- Invariant -----

  predicate Introduces(e: Effect, id: nat) {
    (e.PutMaterial? && e.id == id) || (e.WriteFirst? && e.record.ident.id == id)
  }

  /** No step in the list introduces an identifier that the vault knows. */
  ghost predicate Apart(es: seq<Effect>, vault: Vault) {
    forall k, id: nat :: 0 <= k < |es| && Introduces(es[k], id) ==> id !in vault
  }

  ghost predicate Within(es: seq<Effect>, used: set<nat>) {
    forall k, id: nat :: 0 <= k < |es| && Introduces(es[k], id) ==> id in used
  }

  predicate IdsUsed(s: State) {
    && s.disk.histories.Keys <= s.used
    && s.disk.littered <= s.used
  }

  ghost predicate ProcessInv(s: State, pid: nat)
    requires pid in s.procs
  {
    var p := s.procs[pid];
    && VaultBinds(s.disk, p.vault)
    && p.vault.Keys <= s.used
    && Within(p.pending, s.used)
    && (p.pending != [] ==> s.lock == Some(pid))
    && Safe(View(s, pid), p.pending)
  }

  ghost predicate HolderApart(s: State) {
    forall p, q :: p in s.procs && q in s.procs && p != q ==> Apart(s.procs[p].pending, s.procs[q].vault)
  }

  ghost predicate BaseInv(s: State) {
    && DiskInv(s.disk)
    && Budget(World(s.disk, map[], s.dispatched))
    && IdsUsed(s)
  }

  ghost predicate Inv(s: State) {
    && BaseInv(s)
    && (forall pid :: pid in s.procs ==> ProcessInv(s, pid))
    && HolderApart(s)
  }

  lemma BudgetReads(a: World, b: World)
    requires Budget(a) && a.disk.claims == b.disk.claims && a.dispatched == b.dispatched
    ensures Budget(b)
  {
    hide Count;
    forall id, write ensures WriteBudget(b, id, write) { assert WriteBudget(a, id, write); }
  }

  lemma ViewInv(s: State, pid: nat)
    requires Inv(s) && pid in s.procs
    ensures WorldInv(View(s, pid))
  {
    hide DiskInv, VaultBinds, Budget, Safe, Apart, Within;
    BudgetReads(World(s.disk, map[], s.dispatched), View(s, pid));
  }

  // ----- Entering a call -----

  lemma PerformSafe(w: World, c: Call, now: nat)
    requires WorldInv(w) && (c.PlanChange? ==> NewName(w, c.newId))
    ensures Safe(w, Perform(w, c, now).effects)
  {
    hide WorldInv, Safe, PlanCall, ApplyCall, VerifyCall, RollbackCall;
    match c
    case PlanChange(p, a, newId) => PlanCallSafe(w, p, a, newId, now);
    case ApplyChange(id, key, dryRun, a) => ApplyCallSafe(w, id, key, dryRun, a, now);
    case VerifyChange(id, actual) => VerifyCallSafe(w, id, actual, now);
    case RollbackChange(id, key, dryRun, a) => RollbackCallSafe(w, id, key, dryRun, a, now);
  }

  ghost predicate IntroducesOnly(es: seq<Effect>, newId: Option<nat>) {
    forall k, id: nat :: 0 <= k < |es| && Introduces(es[k], id) ==> newId == Some(id)
  }

  lemma FinishIntroducesNone(d: Disk, sent: seq<Effect>, e: Ending)
    requires IntroducesOnly(sent, None) && Closing(e.closing)
    ensures IntroducesOnly(Finish(d, sent, e).effects, None)
  {
    hide AppendAccepted;
  }

  lemma ApplyIntroducesNone(w: World, id: nat, key: KeyArg, dryRun: bool, a: ApplyAnswers, now: nat)
    ensures IntroducesOnly(ApplyCall(w, id, key, dryRun, a, now).effects, None)
  {
    hide Finish, ApplyReplay, AfterApply, Closing, Follows, AttemptStatus;
    if Loadable(w.disk, id) && a.seen.Some? && key.Key? && Last(w.disk, id).state.Planned? {
      var current := Last(w.disk, id);
      ReplayFollows(current, a.seen.value.hash, now);
      FinishIntroducesNone(w.disk, [], ApplyReplay(current, a.seen.value.hash, now));
      AfterApplyFollows(current, a, now);
      FinishIntroducesNone(w.disk, ClaimEffects(w.disk, key.digest, Apply, current.ident.id) + ApplyWrites(current.ident, a),
                           AfterApply(current, a, now));
    }
  }

  lemma VerifyIntroducesNone(w: World, id: nat, actual: Option<Seen>, now: nat)
    ensures IntroducesOnly(VerifyCall(w, id, actual, now).effects, None)
  {
    hide AppendAccepted, VerifyRecord;
  }

  lemma RollbackIntroducesNone(w: World, id: nat, key: KeyArg, dryRun: bool, a: RollbackAnswers, now: nat)
    ensures IntroducesOnly(RollbackCall(w, id, key, dryRun, a, now).effects, None)
  {
    hide Finish, RollbackReplay, RollbackOnce, Closing, Follows, AttemptStatus;
    if Loadable(w.disk, id) && a.seen.Some? && key.Key? {
      var current := Last(w.disk, id);
      if !current.state.Planned? || current.appliedHash.None? {
        RollbackFollows(current, a.seen.value.hash, now);
      }
      RollbackReplayCloses(current, a.seen.value.hash, now);
      var replay := RollbackReplay(current, a.seen.value.hash, now);
      if replay.Ok? { FinishIntroducesNone(w.disk, [], replay.value); }
      RollbackOnceIntroducesNone(w, id, key.digest, a, now);
    }
  }

  lemma RollbackReplayCloses(current: Record, actual: Hash, now: nat)
    ensures var e := RollbackReplay(current, actual, now); e.Ok? ==> Closing(e.value.closing)
  {
  }

  lemma RollbackOnceIntroducesNone(w: World, id: nat, digest: nat, a: RollbackAnswers, now: nat)
    requires Loadable(w.disk, id) && a.seen.Some?
    ensures IntroducesOnly(RollbackOnce(w, Last(w.disk, id), digest, a, now).effects, None)
  {
    hide Finish, AfterRestore, Closing, Follows, RolledBackRecord;
    var current := Last(w.disk, id);
    var claimed := ClaimEffects(w.disk, digest, Rollback, current.ident.id);
    RestoreFollows(current, a, now);
    ClosingOne(current.ident.id);
    var r := RolledBackRecord(current, a.seen.value.hash, None, now);
    FinishIntroducesNone(w.disk, claimed, Ending(r, [DropMaterial(current.ident.id)], Ok(Success(r, false, false))));
    FinishIntroducesNone(w.disk, claimed + [Dispatch(current.ident.id, RollbackRestore)], AfterRestore(current, a, now));
  }

  lemma PlanIntroducesOne(w: World, p: PlanRequest, a: PlanAnswers, newId: nat, now: nat)
    ensures IntroducesOnly(PlanCall(w, p, a, newId, now).effects, Some(newId))
  {
    hide FindPlan, AllLoadable;
  }

  lemma PerformIntroduces(w: World, c: Call, now: nat)
    ensures IntroducesOnly(Perform(w, c, now).effects, if c.PlanChange? then Some(c.newId) else None)
  {
    hide IntroducesOnly, PlanCall, ApplyCall, VerifyCall, RollbackCall;
    match c
    case PlanChange(p, a, newId) => PlanIntroducesOne(w, p, a, newId, now);
    case ApplyChange(id, key, dryRun, a) => ApplyIntroducesNone(w, id, key, dryRun, a, now);
    case VerifyChange(id, actual) => VerifyIntroducesNone(w, id, actual, now);
    case RollbackChange(id, key, dryRun, a) => RollbackIntroducesNone(w, id, key, dryRun, a, now);
  }

  // ----- Every event keeps the invariant -----

  lemma EnterKeeps(s: State, pid: nat, c: Call, now: nat)
    requires Inv(s) && Enterable(s, pid, c)
    ensures Inv(EnterStep(s, pid, c, now))
  {
    hide Perform, DiskInv, Budget, VaultBinds, Safe, Introduces, IntroducesOnly, Within, Apart;
    var es := Perform(View(s, pid), c, now).effects;
    var t := EnterStep(s, pid, c, now);
    ViewInv(s, pid);
    PerformSafe(View(s, pid), c, now);
    PerformIntroduces(View(s, pid), c, now);
    forall p | p in t.procs ensures ProcessInv(t, p) {
      assert ProcessInv(s, p);
      if p == pid { OnlyNew(es, c, s.used, map[]); } else { SafeNothing(View(t, p)); WithinNothing(t.used); }
    }
    forall p, q | p in t.procs && q in t.procs && p != q ensures Apart(t.procs[p].pending, t.procs[q].vault) {
      assert ProcessInv(s, p) && ProcessInv(s, q);
      if p == pid { OnlyNew(es, c, s.used, s.procs[q].vault); } else { ApartNothing(t.procs[q].vault); }
    }
  }

  lemma OnlyNew(es: seq<Effect>, c: Call, used: set<nat>, vault: Vault)
    requires IntroducesOnly(es, if c.PlanChange? then Some(c.newId) else None)
    requires c.PlanChange? ==> c.newId !in used
    requires vault.Keys <= used
    ensures Within(es, if c.PlanChange? then used + {c.newId} else used)
    ensures Apart(es, vault)
  {
    hide Introduces;
    var drawn := if c.PlanChange? then Some(c.newId) else None;
    forall k, id: nat | 0 <= k < |es| && Introduces(es[k], id) ensures c.PlanChange? && id == c.newId {
      assert drawn == Some(id);
    }
  }

  lemma WithinNothing(used: set<nat>)
    ensures Within([], used)
  {
  }

  lemma ApartNothing(vault: Vault)
    ensures Apart([], vault)
  {
  }

  /** A safe step binds every other process's private material as before. */
  lemma OtherVaultKept(w: World, e: Effect, vault: Vault)
    requires EffectSafe(w, e) && VaultBinds(w.disk, vault)
    requires forall id: nat :: Introduces(e, id) ==> id !in vault
    ensures VaultBinds(Do(w, e).disk, vault)
  {
    hide RecordFine, RecordAccepted, TransitionAccepted, SnapshotBound, BackedBy, RemovalSafe, MaterialMatches,
    HasPlanKey, FirstSafe;
    var next := Do(w, e).disk;
    forall id | id in vault && id in next.histories && next.histories[id] != []
      ensures MaterialMatches(vault[id], next.histories[id][0].ident)
    {
      assert !Introduces(e, id);
      if id in w.disk.histories && w.disk.histories[id] != [] {
        assert MaterialMatches(vault[id], w.disk.histories[id][0].ident);
      }
    }
  }

  lemma DoIntroduces(w: World, e: Effect)
    requires EffectSafe(w, e)
    ensures Do(w, e).disk.histories.Keys <= w.disk.histories.Keys + (if e.WriteFirst? then {e.record.ident.id} else {})
    ensures Do(w, e).disk.littered <= w.disk.littered
    ensures Do(w, e).vault.Keys <= w.vault.Keys + (if e.PutMaterial? then {e.id} else {})
  {
    hide RecordFine, RecordAccepted, TransitionAccepted, SnapshotBound, BackedBy, RemovalSafe, MaterialMatches,
    HasPlanKey, FirstSafe;
  }

  lemma AdvanceProcesses(s: State, pid: nat, p: nat)
    requires Inv(s) && Working(s, pid) && p in s.procs
    requires EffectSafe(View(s, pid), s.procs[pid].pending[0])
    ensures p == pid ==> Safe(Do(View(s, pid), s.procs[pid].pending[0]), s.procs[pid].pending[1..])
    ensures p != pid ==> s.procs[p].pending == [] && VaultBinds(Do(View(s, pid), s.procs[pid].pending[0]).disk, s.procs[p].vault)
  {
    hide Do, EffectSafe, DiskInv, Budget, VaultBinds, Safe, Introduces;
    var es := s.procs[pid].pending;
    assert ProcessInv(s, pid) && ProcessInv(s, p);
    SafeTail(View(s, pid), es);
    if p != pid {
      assert Apart(es, s.procs[p].vault);
      OtherVaultKept(View(s, pid), es[0], s.procs[p].vault);
    }
  }

  lemma TailWithin(es: seq<Effect>, used: set<nat>, vault: Vault)
    requires es != []
    ensures Within(es, used) ==> Within(es[1..], used)
    ensures Apart(es, vault) ==> Apart(es[1..], vault)
  {
    hide Introduces;
    assert forall k :: 0 <= k < |es[1..]| ==> es[1..][k] == es[k + 1];
  }

  lemma HeadWithin(es: seq<Effect>, used: set<nat>)
    requires es != [] && Within(es, used)
    ensures es[0].PutMaterial? ==> es[0].id in used
    ensures es[0].WriteFirst? ==> es[0].record.ident.id in used
  {
    if es[0].PutMaterial? { assert Introduces(es[0], es[0].id); }
    if es[0].WriteFirst? { assert Introduces(es[0], es[0].record.ident.id); }
  }

  lemma AdvanceBase(s: State, pid: nat)
    requires Inv(s) && Working(s, pid)
    ensures EffectSafe(View(s, pid), s.procs[pid].pending[0])
    ensures BaseInv(AdvanceStep(s, pid))
    ensures VaultBinds(AdvanceStep(s, pid).disk, AdvanceStep(s, pid).procs[pid].vault)
    ensures AdvanceStep(s, pid).procs[pid].vault.Keys <= s.used
  {
    hide Do, EffectSafe, DiskInv, Budget, VaultBinds, Safe, Introduces, Apart, Within;
    var es := s.procs[pid].pending;
    var w := View(s, pid);
    assert ProcessInv(s, pid);
    ViewInv(s, pid);
    SafeTail(w, es);
    SafeStepKeeps(w, es[0]);
    DoIntroduces(w, es[0]);
    HeadWithin(es, s.used);
    BudgetReads(Do(w, es[0]), World(Do(w, es[0]).disk, map[], Do(w, es[0]).dispatched));
  }

  lemma AdvanceKeeps(s: State, pid: nat)
    requires Inv(s) && Working(s, pid)
    ensures Inv(AdvanceStep(s, pid))
  {
    hide Do, EffectSafe, DiskInv, Budget, VaultBinds, Safe, Introduces, Apart, Within, BaseInv;
    var es := s.procs[pid].pending;
    var t := AdvanceStep(s, pid);
    AdvanceBase(s, pid);
    TailWithin(es, s.used, map[]);
    forall p | p in t.procs ensures ProcessInv(t, p) {
      assert ProcessInv(s, p);
      AdvanceProcesses(s, pid, p);
      if p != pid { SafeNothing(View(t, p)); }
    }
    forall p, q | p in t.procs && q in t.procs && p != q ensures Apart(t.procs[p].pending, t.procs[q].vault) {
      ApartAfter(s, pid, p, q);
    }
  }

  lemma SafeNothing(w: World)
    ensures Safe(w, [])
  {
  }

  lemma ApartAfter(s: State, pid: nat, p: nat, q: nat)
    requires Inv(s) && Working(s, pid) && p in s.procs && q in s.procs && p != q
    ensures Apart(AdvanceStep(s, pid).procs[p].pending, AdvanceStep(s, pid).procs[q].vault)
  {
    hide Do, EffectSafe, DiskInv, Budget, VaultBinds, Safe, Introduces, BaseInv;
    assert ProcessInv(s, p) && ProcessInv(s, pid);
    assert Apart(s.procs[p].pending, s.procs[q].vault);
    if p == pid { TailWithin(s.procs[pid].pending, s.used, s.procs[q].vault); }
  }

  // ----- Crashes -----

  /** The invariant does not depend on which directories are littered. */
  lemma LitterIsHarmless(d: Disk, littered: set<nat>)
    requires DiskInv(d)
    ensures DiskInv(d.(littered := littered))
  {
    var t := d.(littered := littered);
    hide HistoryFine, SnapshotBound, BackedBy;
    assert HistoriesFine(t) && ClaimsBack(t) && ClaimsNamed(t);
    forall id, key ensures HasPlanKey(t, id, key) == HasPlanKey(d, id, key) { HasPlanKeyReads(t, d, id, key); }
    forall ident ensures SnapshotBound(t, ident) == SnapshotBound(d, ident) { SnapshotReads(t, d, ident); }
    hide HasPlanKey;
  }

  lemma SnapshotReads(a: Disk, b: Disk, ident: Identity)
    requires a.snapshots == b.snapshots
    ensures SnapshotBound(a, ident) == SnapshotBound(b, ident)
  {
  }

  /** A directory without any event is no history yet. */
  lemma EmptyDirectoryIsHarmless(d: Disk, id: nat)
    requires DiskInv(d) && id !in d.histories
    ensures DiskInv(d.(histories := d.histories[id := []]))
  {
    var t := d.(histories := d.histories[id := []]);
    hide RecordFine, TransitionAccepted, SnapshotBound, BackedBy;
    assert HistoryFine([], id);
    forall a, key ensures HasPlanKey(t, a, key) == HasPlanKey(d, a, key) { EmptyCarriesNothing(d, id, a, key); }
    forall ident ensures SnapshotBound(t, ident) == SnapshotBound(d, ident) { SnapshotReads(t, d, ident); }
    hide HasPlanKey, HistoryFine;
  }

  lemma EmptyCarriesNothing(d: Disk, id: nat, a: nat, key: nat)
    requires id !in d.histories
    ensures HasPlanKey(d.(histories := d.histories[id := []]), a, key) == HasPlanKey(d, a, key)
  {
  }

  lemma LitterVault(w: World, e: Effect, cut: Cut, vault: Vault)
    requires EffectSafe(w, e) && VaultBinds(w.disk, vault) && (forall id: nat :: Introduces(e, id) ==> id !in vault)
    ensures VaultBinds(Litter(w.disk, e, cut), vault)
  {
    hide EffectSafe, MaterialMatches, Introduces;
    OtherVaultKept(w, e, vault);
    LitterDisk(w, e, cut);
  }

  /** What a cut leaves of the journal is either the state before the step or the state after it. */
  lemma LitterDisk(w: World, e: Effect, cut: Cut)
    requires EffectSafe(w, e)
    ensures var d := Litter(w.disk, e, cut);
            || (d.histories == w.disk.histories && d == w.disk.(littered := d.littered))
            || (e.WriteFirst? && e.record.ident.id !in w.disk.histories
                && d == w.disk.(histories := w.disk.histories[e.record.ident.id := []], littered := d.littered))
            || d == Do(w, e).disk.(littered := d.littered)
    ensures Litter(w.disk, e, cut).littered
         <= w.disk.littered + (if e.Append? || e.WriteFirst? then {e.record.ident.id} else {})
    ensures (e.Append? ==> e.record.ident.id in w.disk.histories)
  {
    hide RecordFine, RecordAccepted, TransitionAccepted, SnapshotBound, BackedBy, HasPlanKey, MaterialMatches;
  }

  lemma LitterKeeps(w: World, e: Effect, cut: Cut)
    requires WorldInv(w) && EffectSafe(w, e)
    ensures DiskInv(Litter(w.disk, e, cut))
    ensures Litter(w.disk, e, cut).claims == w.disk.claims
  {
    var d := Litter(w.disk, e, cut);
    LitterDisk(w, e, cut);
    SafeStepKeeps(w, e);
    LitterIsHarmless(w.disk, d.littered);
    LitterIsHarmless(Do(w, e).disk, d.littered);
    if e.WriteFirst? && e.record.ident.id !in w.disk.histories {
      EmptyDirectoryIsHarmless(w.disk, e.record.ident.id);
      LitterIsHarmless(w.disk.(histories := w.disk.histories[e.record.ident.id := []]), d.littered);
    }
    hide EffectSafe, DiskInv, Budget, VaultBinds;
  }

  lemma CrashBase(s: State, pid: nat, cut: Cut)
    requires Inv(s) && pid in s.procs
    ensures BaseInv(CrashStep(s, pid, cut))
  {
    hide Litter, EffectSafe, DiskInv, Budget, VaultBinds, Safe, Introduces, Apart, Within, Do;
    assert ProcessInv(s, pid);
    if Working(s, pid) {
      var es := s.procs[pid].pending;
      ViewInv(s, pid);
      SafeTail(View(s, pid), es);
      LitterKeeps(View(s, pid), es[0], cut);
      LitterDisk(View(s, pid), es[0], cut);
      DoIntroduces(View(s, pid), es[0]);
      HeadWithin(es, s.used);
      BudgetReads(World(s.disk, map[], s.dispatched), World(Litter(s.disk, es[0], cut), map[], s.dispatched));
    }
  }

  lemma CrashKeeps(s: State, pid: nat, cut: Cut)
    requires Inv(s) && pid in s.procs
    ensures Inv(CrashStep(s, pid, cut))
  {
    hide Litter, EffectSafe, DiskInv, Budget, VaultBinds, Safe, Introduces, Apart, Within, Do, BaseInv;
    var t := CrashStep(s, pid, cut);
    CrashBase(s, pid, cut);
    forall p | p in t.procs ensures ProcessInv(t, p) {
      assert ProcessInv(s, p);
      CrashProcess(s, pid, cut, p);
    }
  }

  lemma CrashProcess(s: State, pid: nat, cut: Cut, p: nat)
    requires Inv(s) && pid in s.procs && p in s.procs && p != pid
    ensures VaultBinds(CrashStep(s, pid, cut).disk, s.procs[p].vault)
    ensures Safe(World(CrashStep(s, pid, cut).disk, s.procs[p].vault, s.dispatched), s.procs[p].pending)
  {
    hide Litter, EffectSafe, DiskInv, Budget, VaultBinds, Safe, Introduces, Within, Do, BaseInv;
    assert ProcessInv(s, p) && ProcessInv(s, pid);
    if Working(s, pid) {
      var es := s.procs[pid].pending;
      SafeTail(View(s, pid), es);
      assert Apart(es, s.procs[p].vault);
      LitterVault(View(s, pid), es[0], cut, s.procs[p].vault);
      SafeNothing(World(CrashStep(s, pid, cut).disk, s.procs[p].vault, s.dispatched));
    }
  }

  // ----- Failed writes -----

  lemma UndoIntroducesNothing(e: Effect, unreferenced: bool, used: set<nat>, vault: Vault)
    ensures Within(Undo(e, unreferenced), used) && Apart(Undo(e, unreferenced), vault)
  {
  }

  lemma TakeBackSafe(w: World, id: nat, unreferenced: bool)
    requires RemovalSafe(w.disk, id)
    ensures Safe(w, TakeBack(id, unreferenced))
  {
    hide Safe, RemovalSafe;
    var one := Do(w, RemoveChangeSet(id));
    var two := Do(one, DropMaterial(id));
    var rest := if unreferenced then [DiscardSnapshot(id)] else [];
    if unreferenced { SafeOne(two, DiscardSnapshot(id)); } else { SafeNothing(two); }
    SafeCons(one, DropMaterial(id), rest);
    SafeCons(w, RemoveChangeSet(id), [DropMaterial(id)] + rest);
  }

  lemma DropSafe(w: World, id: nat)
    ensures Safe(w, [DropMaterial(id)])
  {
    hide Safe;
    SafeOne(w, DropMaterial(id));
  }

  /** A plan can be taken back at whichever of its writes it fails. */
  lemma UndoIsSafe(w: World, e: Effect, unreferenced: bool)
    requires WorldInv(w) && EffectSafe(w, e)
    ensures Safe(w, Undo(e, unreferenced))
  {
    hide Safe, WorldInv, TakeBack, RecordFine, AppendAccepted, HasPlanKey;
    SafeNothing(w);
    if e.WriteSnapshot? || e.RemoveChangeSet? {
      DropSafe(w, if e.WriteSnapshot? then e.snapshotId else e.id);
    } else if e.WriteFirst? {
      Unreferenced(w, e.record.ident.id);
      TakeBackSafe(w, e.record.ident.id, unreferenced);
    } else if e.WriteMapping? && e.mapping.PlanMapping? {
      TakeBackSafe(w, e.mapping.id, unreferenced);
    }
  }

  lemma FailedDisk(s: State, pid: nat, cut: Cut, unreferenced: bool)
    requires Inv(s) && Working(s, pid)
    ensures var t := FailStep(s, pid, cut, unreferenced);
            && WorldInv(View(t, pid)) && Safe(View(t, pid), t.procs[pid].pending)
            && BaseInv(t)
            && (forall p :: p in t.procs ==> VaultBinds(t.disk, t.procs[p].vault))
  {
    hide Litter, EffectSafe, DiskInv, Budget, VaultBinds, Safe, Introduces, Apart, Within, Do, BaseInv, Undo;
    var e := s.procs[pid].pending[0];
    var w := View(s, pid);
    ViewInv(s, pid);
    assert ProcessInv(s, pid);
    SafeTail(w, s.procs[pid].pending);
    UndoIsSafe(w, e, unreferenced);
    FailedBase(s, pid, cut, unreferenced);
    forall p | p in s.procs ensures VaultBinds(FailStep(s, pid, cut, unreferenced).disk, s.procs[p].vault) {
      assert ProcessInv(s, p);
      if e.Append? { AppendLitterVault(w, e, cut, s.procs[p].vault); }
    }
    if e.Append? { UndoNothing(e, unreferenced); SafeNothing(View(FailStep(s, pid, cut, unreferenced), pid)); }
  }

  lemma UndoNothing(e: Effect, unreferenced: bool)
    requires e.Append?
    ensures Undo(e, unreferenced) == []
  {
  }

  lemma AppendLitterVault(w: World, e: Effect, cut: Cut, vault: Vault)
    requires e.Append? && EffectSafe(w, e) && VaultBinds(w.disk, vault)
    ensures VaultBinds(Litter(w.disk, e, cut), vault)
  {
    hide EffectSafe, VaultBinds, Litter;
    LitterVault(w, e, cut, vault);
  }

  lemma FailedBase(s: State, pid: nat, cut: Cut, unreferenced: bool)
    requires Inv(s) && Working(s, pid)
    ensures BaseInv(FailStep(s, pid, cut, unreferenced))
    ensures Budget(View(FailStep(s, pid, cut, unreferenced), pid)) && DiskInv(FailStep(s, pid, cut, unreferenced).disk)
  {
    hide Litter, EffectSafe, DiskInv, Budget, VaultBinds, Safe, Introduces, Apart, Within, Do, Undo;
    var e := s.procs[pid].pending[0];
    var t := FailStep(s, pid, cut, unreferenced);
    assert ProcessInv(s, pid);
    ViewInv(s, pid);
    SafeTail(View(s, pid), s.procs[pid].pending);
    if e.Append? {
      LitterKeeps(View(s, pid), e, cut);
      LitterDisk(View(s, pid), e, cut);
      DoIntroduces(View(s, pid), e);
    }
    BudgetReads(World(s.disk, map[], s.dispatched), World(t.disk, map[], t.dispatched));
    BudgetReads(World(s.disk, map[], s.dispatched), View(t, pid));
  }

  lemma FailKeeps(s: State, pid: nat, cut: Cut, unreferenced: bool)
    requires Inv(s) && Working(s, pid)
    ensures Inv(FailStep(s, pid, cut, unreferenced))
  {
    hide Litter, EffectSafe, DiskInv, Budget, VaultBinds, Safe, Introduces, Apart, Within, Do, BaseInv, Undo, WorldInv;
    var t := FailStep(s, pid, cut, unreferenced);
    FailedDisk(s, pid, cut, unreferenced);
    forall p | p in t.procs ensures ProcessInv(t, p) {
      assert ProcessInv(s, p);
      UndoIntroducesNothing(s.procs[pid].pending[0], unreferenced, t.used, map[]);
      if p != pid { SafeNothing(View(t, p)); }
    }
    forall p, q | p in t.procs && q in t.procs && p != q ensures Apart(t.procs[p].pending, t.procs[q].vault) {
      assert ProcessInv(s, p);
      UndoIntroducesNothing(s.procs[pid].pending[0], unreferenced, t.used, t.procs[q].vault);
      if p != pid { ApartNothing(t.procs[q].vault); }
    }
  }

  // ----- Keys that publications take -----

  lemma BindKeeps(s: State, key: nat)
    requires Inv(s) && s.lock.None? && key !in s.disk.mappings
    ensures Inv(BindStep(s, key))
  {
    hide EffectSafe, DiskInv, Budget, VaultBinds, Safe, Introduces, Apart, Within, BaseInv;
    var t := BindStep(s, key);
    BindBase(s, key);
    forall p | p in t.procs ensures ProcessInv(t, p) {
      assert ProcessInv(s, p);
      VaultReads(s.disk, t.disk, s.procs[p].vault);
      SafeNothing(View(t, p));
    }
  }

  lemma VaultReads(a: Disk, b: Disk, vault: Vault)
    requires VaultBinds(a, vault) && a.histories == b.histories
    ensures VaultBinds(b, vault)
  {
    hide MaterialMatches;
  }

  lemma BindBase(s: State, key: nat)
    requires BaseInv(s) && key !in s.disk.mappings
    ensures BaseInv(BindStep(s, key))
  {
    var w := World(s.disk, map[], s.dispatched);
    hide DiskInv, Budget;
    SafeStepKeeps(w, WriteMapping(key, PublicationMapping));
  }

  // ----- Runs -----

  lemma InitInv()
    ensures Inv(INIT)
  {
    forall id, write ensures WriteBudget(World(EMPTY_DISK, map[], []), id, write) {}
  }

  lemma StartKeeps(s: State, pid: nat)
    requires Inv(s) && pid !in s.procs
    ensures Inv(s.(procs := s.procs[pid := Process(map[], [])]))
  {
    hide DiskInv, Budget, Safe, Introduces, BaseInv;
    var t := s.(procs := s.procs[pid := Process(map[], [])]);
    SafeNothing(View(t, pid));
    forall p | p in t.procs ensures ProcessInv(t, p) { if p != pid { assert ProcessInv(s, p); } }
    assert BaseInv(t) by { BaseReads(s, t); }
  }

  lemma BaseReads(a: State, b: State)
    requires BaseInv(a) && a.disk == b.disk && a.dispatched == b.dispatched && a.used == b.used
    ensures BaseInv(b)
  {
    hide DiskInv, Budget;
  }

  lemma UnlockKeeps(s: State)
    requires Inv(s) && s.lock.Some?
    requires s.lock.value in s.procs ==> s.procs[s.lock.value].pending == []
    ensures Inv(s.(lock := None))
  {
    hide DiskInv, Budget, Safe, Introduces, BaseInv, VaultBinds, Apart, Within;
    var t := s.(lock := None);
    assert BaseInv(t) by { BaseReads(s, t); }
    forall p | p in t.procs ensures ProcessInv(t, p) { assert ProcessInv(s, p); }
  }

  lemma StepKeeps(s: State, e: Event)
    requires Inv(s)
    ensures Inv(Step(s, e))
  {
    hide Inv, EnterStep, AdvanceStep, CrashStep, FailStep, BindStep;
    match e
    case Start(pid) => if pid !in s.procs { StartKeeps(s, pid); }
    case Enter(pid, c, now) => if Enterable(s, pid, c) { EnterKeeps(s, pid, c, now); }
    case Advance(pid) => if Working(s, pid) { AdvanceKeeps(s, pid); }
    case Leave(pid) => if pid in s.procs && s.lock == Some(pid) && s.procs[pid].pending == [] { UnlockKeeps(s); }
    case Crash(pid, cut) => if pid in s.procs { CrashKeeps(s, pid, cut); }
    case Fail(pid, cut, unreferenced) => if Working(s, pid) { FailKeeps(s, pid, cut, unreferenced); }
    case ClearLock => if s.lock.Some? && s.lock.value !in s.procs { UnlockKeeps(s); }
    case BindElsewhere(key) => if s.lock.None? && key !in s.disk.mappings { BindKeeps(s, key); }
  }

  /** The invariant holds after every run, whatever the calls, the remote, the crashes and the operator do. */
  lemma {:induction false} ReachableInv(events: seq<Event>)
    ensures Inv(Run(INIT, events))
    decreases |events|
  {
    hide Inv, Step;
    if events == [] {
      InitInv();
    } else {
      ReachableInv(events[..|events| - 1]);
      StepKeeps(Run(INIT, events[..|events| - 1]), events[|events| - 1]);
    }
  }
}
