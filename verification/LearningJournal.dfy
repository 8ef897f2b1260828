/**
 The learning execution journal: write-once entry files, two families of `mkdir`
 locks, and any number of processes that interleave between file-system calls.
 Every call of the journal is one event. A file is created by an exclusive open
 and becomes readable only when a later event completes its content, so a crash
 or a full disk can leave a torn file behind.
 */
module LearningJournal {

  /** Digests are injective, so each is represented by the value it stands for. */
  datatype Identity = Identity(
    key: nat, target: nat, request: nat, capability: nat, action: nat, taskId: nat, grant: nat)

  datatype Outcome = InFlight | Completed | Failed | Ambiguous

  datatype Entry = Entry(id: Identity, sequence: nat, state: Outcome)

  datatype FileName = FileName(target: nat, key: nat, sequence: nat, state: Outcome)

  /** When the claim was started and, in a final entry, when it was finished: two readings of a clock that may go back. */
  datatype Dates = Started(at: int) | Finished(startedAt: int, finishedAt: int)

  datatype Content = Torn | Whole(entry: Entry, dates: Dates)

  type Directory = map<FileName, Content>

  function NameOf(e: Entry): FileName {
    FileName(e.id.target, e.id.key, e.sequence, e.state)
  }

  function ClaimEntry(id: Identity): Entry { Entry(id, 0, InFlight) }

  function FinalEntry(id: Identity, state: Outcome): Entry { Entry(id, 1, state) }

  // ----- Reading the directory -----

  predicate EntryValid(e: Entry) {
    (e.sequence == 0 && e.state.InFlight?) || (e.sequence == 1 && !e.state.InFlight?)
  }

  predicate FileReadable(dir: Directory, n: FileName)
    requires n in dir
  {
    && dir[n].Whole? && NameOf(dir[n].entry) == n && EntryValid(dir[n].entry)
    && DatesFit(n.sequence, dir[n].dates) && !Backdated(dir[n])
  }

  predicate DatesFit(sequence: nat, d: Dates) {
    if sequence == 0 then d.Started? else d.Finished?
  }

  /** A whole final entry that says the claim was finished before it was started. */
  predicate Backdated(c: Content) {
    c.Whole? && c.dates.Finished? && c.dates.finishedAt < c.dates.startedAt
  }

  predicate Readable(dir: Directory) {
    forall n <- dir :: FileReadable(dir, n)
  }

  function Records(dir: Directory): (records: set<Entry>)
    requires Readable(dir)
  {
    set n <- dir :: dir[n].entry
  }

  predicate SameHistory(a: Entry, b: Entry) {
    a.id.target == b.id.target && a.id.key == b.id.key
  }

  predicate ClaimPresent(records: set<Entry>, e: Entry) {
    exists c <- records :: SameHistory(c, e) && c.sequence == 0
  }

  /** Each history starts with its one claim and has at most one final entry of the same identity. */
  predicate HistoriesSound(records: set<Entry>) {
    && (forall e <- records :: e.sequence <= 1 && ClaimPresent(records, e))
    && (forall a <- records, b <- records :: SameHistory(a, b) ==>
          a.id == b.id && (a.sequence == b.sequence ==> a == b))
  }

  predicate Superseded(records: set<Entry>, e: Entry) {
    exists f <- records :: SameHistory(f, e) && f.sequence > e.sequence
  }

  function Latest(records: set<Entry>): set<Entry> {
    set e <- records | !Superseded(records, e)
  }

  /** A scan refuses to read a larger directory. */
  const MAX_ENTRIES := 10_000

  predicate ScanSucceeds(dir: Directory) {
    |dir| <= MAX_ENTRIES && Readable(dir) && HistoriesSound(Records(dir))
  }

  predicate Unresolved(e: Entry) { e.state.InFlight? || e.state.Ambiguous? }

  predicate KeySeen(latest: set<Entry>, key: nat) {
    exists e <- latest :: e.id.key == key
  }

  predicate TargetQuarantined(latest: set<Entry>, target: nat) {
    exists e <- latest :: e.id.target == target && Unresolved(e)
  }

  predicate ClaimPermitted(dir: Directory, id: Identity) {
    && ScanSucceeds(dir)
    && !KeySeen(Latest(Records(dir)), id.key)
    && !TargetQuarantined(Latest(Records(dir)), id.target)
  }

  // ----- Writing the directory -----

  /**
   The entry files, with two records kept for reasoning: the claims in the order
   in which their files were created, and the same claims by idempotency key.
   */
  datatype Journal = Journal(dir: Directory, log: seq<Identity>, owner: map<nat, Identity>)

  datatype WriteResult = Durable | TornWrite | SyncFailed

  function AddClaim(j: Journal, id: Identity): Journal {
    Journal(j.dir[NameOf(ClaimEntry(id)) := Torn], j.log + [id], j.owner[id.key := id])
  }

  function AddFinal(j: Journal, id: Identity, o: Outcome): Journal {
    j.(dir := j.dir[NameOf(FinalEntry(id, o)) := Torn])
  }

  /** A failed sync leaves the content in place; a failed write leaves the torn file. */
  function FillEntry(j: Journal, e: Entry, d: Dates, result: WriteResult): Journal {
    if result.TornWrite? then j else j.(dir := j.dir[NameOf(e) := Whole(e, d)])
  }

  /** The history ended in a way that proves the target restored. */
  predicate Settled(j: Journal, id: Identity) {
    HasFinal(j, id, Completed) || HasFinal(j, id, Failed)
  }

  predicate HasFinal(j: Journal, id: Identity, o: Outcome) {
    var n := NameOf(FinalEntry(id, o));
    n in j.dir && j.dir[n].Whole? && j.dir[n].entry == FinalEntry(id, o)
  }

  predicate NoFinal(j: Journal, id: Identity) {
    forall n <- j.dir :: n.key == id.key ==> n.sequence == 0
  }

  predicate NameValid(n: FileName) {
    (n.sequence == 0 && n.state.InFlight?) || (n.sequence == 1 && !n.state.InFlight?)
  }

  /** File `n` belongs to the one claim of its key, and torn or not can hold nothing else. */
  predicate Explained(j: Journal, n: FileName) {
    && NameValid(n)
    && n.key in j.owner && j.owner[n.key].target == n.target
    && (n in j.dir && j.dir[n].Whole? ==>
          j.dir[n].entry == Entry(j.owner[n.key], n.sequence, n.state) && DatesFit(n.sequence, j.dir[n].dates))
  }

  predicate OwnersLogged(j: Journal) {
    && (forall k <- j.owner :: j.owner[k].key == k && j.owner[k] in j.log)
    && (forall id <- j.log :: id.key in j.owner && j.owner[id.key] == id)
    && (forall id <- j.log :: NameOf(ClaimEntry(id)) in j.dir)
  }

  predicate FilesExplained(j: Journal) {
    forall n <- j.dir :: Explained(j, n)
  }

  /** No idempotency key was ever claimed twice, on one target or on two. */
  predicate KeysUnique(j: Journal) {
    forall a, b :: 0 <= a < b < |j.log| ==> j.log[a].key != j.log[b].key
  }

  /** A history has one claim file and at most one final file. */
  predicate OneFilePerStep(j: Journal) {
    forall n <- j.dir, m <- j.dir :: n.key == m.key && n.sequence == m.sequence ==> n == m
  }

  /** Every history but the last one on its target is settled. */
  predicate EarlierSettled(j: Journal) {
    forall a, b :: 0 <= a < b < |j.log| && j.log[a].target == j.log[b].target ==>
      Settled(j, j.log[a])
  }

  predicate JournalSound(j: Journal) {
    OwnersLogged(j) && FilesExplained(j) && KeysUnique(j) && OneFilePerStep(j) && EarlierSettled(j)
  }

  // ----- Processes, locks and the shared state -----

  datatype Phase =
    | Seen                         // first scan passed
    | KeyDir | KeyOwned            // key lock directory made; its owner file written
    | TargetDir | TargetOwned      // likewise for the target lock
    | Cleared                      // second scan passed
    | Creating(startedAt: int)     // claim file opened, content pending
    | Live(startedAt: int)         // the caller holds the claim
    | Ending(outcome: Outcome, startedAt: int, finishedAt: int)  // final file opened, content pending
    | Ended                        // final entry durable; locks still held
    | KeyUnlinked | KeyFree        // key lock: owner file gone; directory gone
    | TargetUnlinked
    | Dropped                      // final entry failed: the claim keeps its locks for good
    | UndoTarget | UndoTargetUnlinked | UndoKey | UndoKeyUnlinked  // unclaimed exit

  /** `maker` is known only to the model; the owner file holds a fresh nonce. */
  datatype LockDir = Bare(maker: nat) | Owned(maker: nat, nonce: nat)

  type Locks = map<nat, LockDir>

  datatype Process = Process(id: Identity, phase: Phase, keyNonce: nat, targetNonce: nat)

  datatype State = State(
    journal: Journal, keyLocks: Locks, targetLocks: Locks, procs: map<nat, Process>, nonce: nat)

  const Initial := State(Journal(map[], [], map[]), map[], map[], map[], 0)

  datatype Event =
    | Begin(pid: nat, id: Identity)
    | MakeKeyDir(pid: nat, ioOk: bool)
    | OwnKey(pid: nat, written: bool)
    | MakeTargetDir(pid: nat, ioOk: bool)
    | OwnTarget(pid: nat, written: bool)
    | Rescan(pid: nat, ioOk: bool)
    | OpenClaim(pid: nat, ioOk: bool, now: int)
    | FillClaim(pid: nat, result: WriteResult)
    | OpenFinal(pid: nat, outcome: Outcome, now: int)
    | FillFinal(pid: nat, result: WriteResult)
    | Release(pid: nat, ioOk: bool)
    | Crash(pid: nat)

  predicate HoldsKey(p: Phase) {
    match p
    case Seen | KeyFree | TargetUnlinked => false
    case _ => true
  }

  predicate HoldsTarget(p: Phase) {
    match p
    case Seen | KeyDir | KeyOwned | UndoKey | UndoKeyUnlinked => false
    case _ => true
  }

  /** The process may still decide how the claim it created ends. */
  predicate MayStillFinish(p: Phase) { p.Creating? || p.Live? || p.Ending? }

  predicate OwnedBy(locks: Locks, name: nat, nonce: nat) {
    name in locks && locks[name].Owned? && locks[name].nonce == nonce
  }

  function Advance(s: State, pid: nat, phase: Phase): State
    requires pid in s.procs
  {
    s.(procs := s.procs[pid := s.procs[pid].(phase := phase)])
  }

  function Stop(s: State, pid: nat): State {
    s.(procs := s.procs - {pid})
  }

  function Step(s: State, e: Event): State {
    if e.Begin? then
      if e.pid in s.procs || !ClaimPermitted(s.journal.dir, e.id) then s
      else s.(procs := s.procs[e.pid := Process(e.id, Seen, 0, 0)])
    else if e.Crash? then Stop(s, e.pid)
    else if e.pid !in s.procs then s
    else if e.MakeKeyDir? || e.OwnKey? || e.MakeTargetDir? || e.OwnTarget? then AcquireStep(s, e)
    else if e.Release? then ReleaseStep(s, e.pid, e.ioOk)
    else JournalStep(s, e)
  }

  function AcquireStep(s: State, e: Event): State
    requires e.MakeKeyDir? || e.OwnKey? || e.MakeTargetDir? || e.OwnTarget?
    requires e.pid in s.procs
  {
    var pid := e.pid;
    var p := s.procs[pid];
    match (e, p.phase)
    case (MakeKeyDir(_, ioOk), Seen) =>
      if !ioOk || p.id.key in s.keyLocks then Stop(s, pid)
      else Advance(s, pid, KeyDir).(keyLocks := s.keyLocks[p.id.key := Bare(pid)])
    case (OwnKey(_, written), KeyDir) =>
      if !written then Stop(s, pid)       // the directory is deliberately left behind
      else s.(procs := s.procs[pid := p.(phase := KeyOwned, keyNonce := s.nonce)],
              keyLocks := s.keyLocks[p.id.key := Owned(pid, s.nonce)], nonce := s.nonce + 1)
    case (MakeTargetDir(_, ioOk), KeyOwned) =>
      if !ioOk || p.id.target in s.targetLocks then Advance(s, pid, UndoKey)
      else Advance(s, pid, TargetDir).(targetLocks := s.targetLocks[p.id.target := Bare(pid)])
    case (OwnTarget(_, written), TargetDir) =>
      if !written then Advance(s, pid, UndoKey)
      else s.(procs := s.procs[pid := p.(phase := TargetOwned, targetNonce := s.nonce)],
              targetLocks := s.targetLocks[p.id.target := Owned(pid, s.nonce)], nonce := s.nonce + 1)
    case _ => s
  }

  function JournalStep(s: State, e: Event): State
    requires e.Rescan? || e.OpenClaim? || e.FillClaim? || e.OpenFinal? || e.FillFinal?
    requires e.pid in s.procs
  {
    var pid := e.pid;
    var p := s.procs[pid];
    match (e, p.phase)
    case (Rescan(_, ioOk), TargetOwned) =>
      Advance(s, pid, if ioOk && ClaimPermitted(s.journal.dir, p.id) then Cleared else UndoTarget)
    case (OpenClaim(_, ioOk, now), Cleared) =>
      if !ioOk || NameOf(ClaimEntry(p.id)) in s.journal.dir then Advance(s, pid, UndoTarget)
      else Advance(s, pid, Creating(now)).(journal := AddClaim(s.journal, p.id))
    case (FillClaim(_, result), Creating(started)) =>
      Advance(s, pid, if result.Durable? then Live(started) else UndoTarget)
      .(journal := FillEntry(s.journal, ClaimEntry(p.id), Started(started), result))
    case (OpenFinal(_, outcome, now), Live(started)) =>
      if outcome.InFlight? then s
      else if NameOf(FinalEntry(p.id, outcome)) in s.journal.dir then Advance(s, pid, Dropped)
      else Advance(s, pid, Ending(outcome, started, now)).(journal := AddFinal(s.journal, p.id, outcome))
    case (FillFinal(_, result), Ending(outcome, started, finished)) =>
      Advance(s, pid, if result.Durable? then Ended else Dropped)
      .(journal := FillEntry(s.journal, FinalEntry(p.id, outcome), Finished(started, finished), result))
    case _ => s
  }

  function Unlink(locks: Locks, name: nat): Locks
    requires name in locks
  {
    locks[name := Bare(locks[name].maker)]
  }

  /**
   Each lock is released by an owner check with the unlink of its owner file, then by the removal
   of its directory. After a final entry the key lock goes first and any failure stops there; the
   unclaimed exit starts with the target lock and carries on past every failure.
   */
  function ReleaseStep(s: State, pid: nat, ioOk: bool): State
    requires pid in s.procs
  {
    var p := s.procs[pid];
    var keyMine := ioOk && OwnedBy(s.keyLocks, p.id.key, p.keyNonce);
    var targetMine := ioOk && OwnedBy(s.targetLocks, p.id.target, p.targetNonce);
    match p.phase
    case Ended =>
      if !keyMine then Stop(s, pid)
      else Advance(s, pid, KeyUnlinked).(keyLocks := Unlink(s.keyLocks, p.id.key))
    case KeyUnlinked =>
      if !ioOk then Stop(s, pid)
      else Advance(s, pid, KeyFree).(keyLocks := s.keyLocks - {p.id.key})
    case KeyFree =>
      if !targetMine then Stop(s, pid)
      else Advance(s, pid, TargetUnlinked).(targetLocks := Unlink(s.targetLocks, p.id.target))
    case TargetUnlinked =>
      if !ioOk then Stop(s, pid)
      else Stop(s, pid).(targetLocks := s.targetLocks - {p.id.target})
    case UndoTarget =>
      if !targetMine then Advance(s, pid, UndoKey)
      else Advance(s, pid, UndoTargetUnlinked).(targetLocks := Unlink(s.targetLocks, p.id.target))
    case UndoTargetUnlinked =>
      if !ioOk then Advance(s, pid, UndoKey)
      else Advance(s, pid, UndoKey).(targetLocks := s.targetLocks - {p.id.target})
    case UndoKey =>
      if !keyMine then Stop(s, pid)
      else Advance(s, pid, UndoKeyUnlinked).(keyLocks := Unlink(s.keyLocks, p.id.key))
    case UndoKeyUnlinked =>
      if !ioOk then Stop(s, pid)
      else Stop(s, pid).(keyLocks := s.keyLocks - {p.id.key})
    case _ => s
  }

  function Run(s: State, events: seq<Event>): State
    decreases |events|
  {
    if events == [] then s else Run(Step(s, events[0]), events[1..])
  }

  // ----- The invariant -----

  predicate MadeBy(locks: Locks, name: nat, pid: nat) {
    name in locks && locks[name].maker == pid
  }

  /** A process in a holding phase is the maker of the directory it relies on. */
  predicate LocksHeld(s: State, pid: nat)
    requires pid in s.procs
  {
    && (HoldsKey(s.procs[pid].phase) ==> MadeBy(s.keyLocks, s.procs[pid].id.key, pid))
    && (HoldsTarget(s.procs[pid].phase) ==> MadeBy(s.targetLocks, s.procs[pid].id.target, pid))
  }

  predicate ProcessSound(j: Journal, p: Process) {
    match p.phase
    case Cleared =>
      && p.id.key !in j.owner
      && (forall h <- j.log :: h.target == p.id.target ==> Settled(j, h))
    case Creating(_) => p.id in j.log && NoFinal(j, p.id) && ClaimPending(j, p.id)
    case Live(_) => p.id in j.log && NoFinal(j, p.id)
    case Ending(o, _, _) => p.id in j.log && !o.InFlight? && FinalPending(j, p.id, o)
    case _ => true
  }

  predicate ClaimPending(j: Journal, id: Identity) {
    NameOf(ClaimEntry(id)) in j.dir && j.dir[NameOf(ClaimEntry(id))].Torn?
  }

  predicate FinalPending(j: Journal, id: Identity, o: Outcome) {
    NameOf(FinalEntry(id, o)) in j.dir && j.dir[NameOf(FinalEntry(id, o))].Torn?
  }

  predicate LocksExclusive(s: State) { forall pid <- s.procs :: LocksHeld(s, pid) }

  predicate ProcessesSound(s: State) { forall pid <- s.procs :: ProcessSound(s.journal, s.procs[pid]) }

  predicate Inv(s: State) {
    LocksExclusive(s) && JournalSound(s.journal) && ProcessesSound(s)
  }

  // ----- Lock traffic -----

  /** Only `pid` moved, and only directories that `pid` made changed. */
  predicate OnlyOwnLocks(s: State, s': State, pid: nat) {
    && (forall q <- s'.procs :: q != pid ==> q in s.procs && s'.procs[q] == s.procs[q])
    && (forall k <- s.keyLocks :: s.keyLocks[k].maker != pid ==>
          k in s'.keyLocks && s'.keyLocks[k] == s.keyLocks[k])
    && (forall t <- s.targetLocks :: s.targetLocks[t].maker != pid ==>
          t in s'.targetLocks && s'.targetLocks[t] == s.targetLocks[t])
    && (pid in s'.procs ==> LocksHeld(s', pid))
  }

  lemma LocksFrame(s: State, s': State, pid: nat)
    requires LocksExclusive(s) && OnlyOwnLocks(s, s', pid)
    ensures LocksExclusive(s')
  {
    forall q <- s'.procs ensures LocksHeld(s', q) {
      if q != pid { assert LocksHeld(s, q); }
    }
  }

  lemma AcquireKeepsLocks(s: State, e: Event)
    requires e.MakeKeyDir? || e.OwnKey? || e.MakeTargetDir? || e.OwnTarget?
    requires e.pid in s.procs && LocksExclusive(s)
    ensures LocksExclusive(AcquireStep(s, e))
  {
    assert LocksHeld(s, e.pid);
    LocksFrame(s, AcquireStep(s, e), e.pid);
  }

  lemma ReleaseKeepsLocks(s: State, pid: nat, ioOk: bool)
    requires pid in s.procs && LocksExclusive(s)
    ensures LocksExclusive(ReleaseStep(s, pid, ioOk))
  {
    assert LocksHeld(s, pid);
    LocksFrame(s, ReleaseStep(s, pid, ioOk), pid);
  }

  // ----- The journal under each write -----

  /** Nothing that was completed is ever rewritten. */
  predicate Extends(j: Journal, j': Journal) {
    && j.log <= j'.log
    && (forall n <- j.dir :: n in j'.dir && (j.dir[n].Whole? ==> j'.dir[n] == j.dir[n]))
  }

  lemma SettledPersists(j: Journal, j': Journal, h: Identity)
    requires Extends(j, j') && Settled(j, h)
    ensures Settled(j', h)
  {
    var o := if HasFinal(j, h, Completed) then Completed else Failed;
    assert NameOf(FinalEntry(h, o)) in j.dir;
  }

  lemma AddClaimExtends(j: Journal, id: Identity)
    requires NameOf(ClaimEntry(id)) !in j.dir
    ensures Extends(j, AddClaim(j, id))
  {}

  lemma AddClaimSound(j: Journal, id: Identity)
    requires JournalSound(j) && id.key !in j.owner
    requires forall h <- j.log :: h.target == id.target ==> Settled(j, h)
    ensures NameOf(ClaimEntry(id)) !in j.dir
    ensures JournalSound(AddClaim(j, id))
  {
    hide Settled;
    AddClaimExplained(j, id);
    hide FilesExplained, OwnersLogged, KeysUnique, OneFilePerStep, EarlierSettled;
    AddClaimKeysUnique(j, id);
    AddClaimOneFile(j, id);
    AddClaimEarlierSettled(j, id);
  }

  lemma AddClaimExplained(j: Journal, id: Identity)
    requires FilesExplained(j) && id.key !in j.owner
    ensures NameOf(ClaimEntry(id)) !in j.dir
    ensures FilesExplained(AddClaim(j, id))
  {
    var j' := AddClaim(j, id);
    var n := NameOf(ClaimEntry(id));
    assert n in j.dir ==> Explained(j, n);
    forall m <- j'.dir ensures Explained(j', m) {
      if m != n { assert Explained(j, m); }
    }
  }

  lemma AddClaimKeysUnique(j: Journal, id: Identity)
    requires OwnersLogged(j) && KeysUnique(j) && id.key !in j.owner
    ensures KeysUnique(AddClaim(j, id)) && OwnersLogged(AddClaim(j, id))
  {
    var j' := AddClaim(j, id);
    forall a, b | 0 <= a < b < |j'.log| ensures j'.log[a].key != j'.log[b].key {
      assert j.log[a] in j.log;
    }
    forall h <- j'.log ensures h.key in j'.owner && j'.owner[h.key] == h && NameOf(ClaimEntry(h)) in j'.dir {
      assert h in j.log || h == id;
    }
  }

  lemma AddClaimOneFile(j: Journal, id: Identity)
    requires FilesExplained(j) && OneFilePerStep(j) && id.key !in j.owner
    ensures OneFilePerStep(AddClaim(j, id))
  {
    var j' := AddClaim(j, id);
    forall n <- j'.dir, m <- j'.dir | n.key == m.key && n.sequence == m.sequence ensures n == m {
      if n in j.dir { assert Explained(j, n); }
      if m in j.dir { assert Explained(j, m); }
    }
  }

  lemma AddClaimEarlierSettled(j: Journal, id: Identity)
    requires EarlierSettled(j) && NameOf(ClaimEntry(id)) !in j.dir
    requires forall h <- j.log :: h.target == id.target ==> Settled(j, h)
    ensures EarlierSettled(AddClaim(j, id))
  {
    var j' := AddClaim(j, id);
    forall a, b | 0 <= a < b < |j'.log| && j'.log[a].target == j'.log[b].target
      ensures Settled(j', j'.log[a])
    {
      assert j'.log[a] == j.log[a] && j.log[a] in j.log;
      assert Settled(j, j.log[a]);
      AddClaimExtends(j, id);
      SettledPersists(j, j', j.log[a]);
    }
  }

  lemma EarlierSettledPersists(j: Journal, j': Journal)
    requires EarlierSettled(j) && Extends(j, j') && j'.log == j.log
    ensures EarlierSettled(j')
  {
    forall a, b | 0 <= a < b < |j'.log| && j'.log[a].target == j'.log[b].target
      ensures Settled(j', j'.log[a])
    {
      SettledPersists(j, j', j.log[a]);
    }
  }

  /** A change of files alone, adding a name or completing one, keeps claims and their order. */
  lemma OwnersPersist(j: Journal, j': Journal)
    requires OwnersLogged(j) && j'.log == j.log && j'.owner == j.owner && j.dir.Keys <= j'.dir.Keys
    ensures OwnersLogged(j')
  {}

  lemma AddFinalSound(j: Journal, id: Identity, o: Outcome)
    requires JournalSound(j) && id in j.log && NoFinal(j, id) && !o.InFlight?
    ensures Extends(j, AddFinal(j, id, o))
    ensures JournalSound(AddFinal(j, id, o))
  {
    hide FilesExplained, KeysUnique, OneFilePerStep, EarlierSettled, NoFinal, Extends;
    OwnerOf(j, id);
    OwnersPersist(j, AddFinal(j, id, o));
    hide OwnersLogged;
    AddFinalExtends(j, id, o);
    AddFinalExplained(j, id, o);
    AddFinalOneFile(j, id, o);
    EarlierSettledPersists(j, AddFinal(j, id, o));
    KeysPersist(j, AddFinal(j, id, o));
  }

  lemma OwnerOf(j: Journal, id: Identity)
    requires OwnersLogged(j) && id in j.log
    ensures id.key in j.owner && j.owner[id.key] == id
  {}

  lemma KeysPersist(j: Journal, j': Journal)
    requires KeysUnique(j) && j'.log == j.log
    ensures KeysUnique(j')
  {}

  lemma AddFinalExtends(j: Journal, id: Identity, o: Outcome)
    requires NoFinal(j, id)
    ensures Extends(j, AddFinal(j, id, o))
  {
    assert NameOf(FinalEntry(id, o)) !in j.dir;
  }

  lemma AddFinalExplained(j: Journal, id: Identity, o: Outcome)
    requires FilesExplained(j) && id.key in j.owner && j.owner[id.key] == id && !o.InFlight?
    ensures FilesExplained(AddFinal(j, id, o))
  {
    var j' := AddFinal(j, id, o);
    forall n <- j'.dir ensures Explained(j', n) {
      if n != NameOf(FinalEntry(id, o)) { assert Explained(j, n); }
    }
  }

  lemma AddFinalOneFile(j: Journal, id: Identity, o: Outcome)
    requires OneFilePerStep(j) && NoFinal(j, id)
    ensures OneFilePerStep(AddFinal(j, id, o))
  {
    var j' := AddFinal(j, id, o);
    var f := NameOf(FinalEntry(id, o));
    forall n <- j'.dir, m <- j'.dir | n.key == m.key && n.sequence == m.sequence ensures n == m {
      assert n == f || n in j.dir;
      assert m == f || m in j.dir;
    }
  }

  lemma FillSound(j: Journal, e: Entry, d: Dates, r: WriteResult)
    requires JournalSound(j) && NameOf(e) in j.dir && e.id in j.log && EntryValid(e) && DatesFit(e.sequence, d)
    requires j.dir[NameOf(e)].Torn?
    ensures Extends(j, FillEntry(j, e, d, r))
    ensures JournalSound(FillEntry(j, e, d, r))
  {
    hide FilesExplained, KeysUnique, OneFilePerStep, EarlierSettled, Extends;
    var j' := FillEntry(j, e, d, r);
    assert j'.dir.Keys == j.dir.Keys;
    OwnerOf(j, e.id);
    OwnersPersist(j, j');
    hide OwnersLogged;
    FillOneFile(j, j');
    FillExplained(j, e, d, r);
    EarlierSettledPersists(j, j');
    KeysPersist(j, j');
  }

  lemma FillOneFile(j: Journal, j': Journal)
    requires OneFilePerStep(j) && j'.dir.Keys == j.dir.Keys
    ensures OneFilePerStep(j')
  {
    forall n <- j'.dir, m <- j'.dir | n.key == m.key && n.sequence == m.sequence ensures n == m {
      assert n in j.dir && m in j.dir;
    }
  }

  lemma FillExplained(j: Journal, e: Entry, d: Dates, r: WriteResult)
    requires FilesExplained(j) && NameOf(e) in j.dir && DatesFit(e.sequence, d) && j.dir[NameOf(e)].Torn?
    requires e.id.key in j.owner && j.owner[e.id.key] == e.id
    ensures Extends(j, FillEntry(j, e, d, r))
    ensures FilesExplained(FillEntry(j, e, d, r))
  {
    var j' := FillEntry(j, e, d, r);
    assert Explained(j, NameOf(e));
    forall n <- j'.dir ensures Explained(j', n) {
      assert Explained(j, n);
    }
  }

  // ----- The second scan -----

  /** A clear scan proves that the key is new and that every earlier claim on the target is settled. */
  lemma PermittedClaimIsFresh(j: Journal, id: Identity)
    requires JournalSound(j) && ClaimPermitted(j.dir, id)
    ensures id.key !in j.owner
    ensures forall h <- j.log :: h.target == id.target ==> Settled(j, h)
  {
    forall h <- j.log
      ensures h.key != id.key && (h.target == id.target ==> Settled(j, h))
    {
      var e := LatestOfHistory(j, h);
    }
  }

  lemma LatestOfHistory(j: Journal, h: Identity) returns (e: Entry)
    requires JournalSound(j) && Readable(j.dir) && h in j.log
    ensures e in Latest(Records(j.dir)) && e.id == h
    ensures !Unresolved(e) ==> Settled(j, h)
  {
    hide OwnersLogged, KeysUnique, OneFilePerStep, EarlierSettled, FilesExplained, Readable, Records, Settled;
    OwnerOf(j, h);
    ClaimFileExists(j, h);
    ClaimOnRecord(j, h);
    e := ClaimEntry(h);
    var records := Records(j.dir);
    if Superseded(records, e) {
      var f :| f in records && SameHistory(f, e) && f.sequence > e.sequence;
      FinalOnRecord(j, h, f);
      FinalNotSuperseded(j, f);
      e := f;
    }
  }

  lemma ClaimOnRecord(j: Journal, h: Identity)
    requires FilesExplained(j) && Readable(j.dir)
    requires h.key in j.owner && j.owner[h.key] == h && NameOf(ClaimEntry(h)) in j.dir
    ensures ClaimEntry(h) in Records(j.dir)
  {
    var n := NameOf(ClaimEntry(h));
    assert Explained(j, n) && FileReadable(j.dir, n);
    assert j.dir[n].entry in Records(j.dir);
  }

  lemma FinalOnRecord(j: Journal, h: Identity, f: Entry)
    requires FilesExplained(j) && Readable(j.dir)
    requires h.key in j.owner && j.owner[h.key] == h
    requires f in Records(j.dir) && SameHistory(f, ClaimEntry(h)) && f.sequence > 0
    ensures f == FinalEntry(h, f.state) && !f.state.InFlight?
    ensures !Unresolved(f) ==> Settled(j, h)
  {
    var m :| m in j.dir && j.dir[m].entry == f;
    assert FileReadable(j.dir, m) && Explained(j, m);
  }

  lemma FinalNotSuperseded(j: Journal, f: Entry)
    requires Readable(j.dir) && f in Records(j.dir) && f.sequence == 1
    ensures f in Latest(Records(j.dir))
  {
    forall g <- Records(j.dir) ensures g.sequence <= 1 {
      var m :| m in j.dir && j.dir[m].entry == g;
      assert FileReadable(j.dir, m);
    }
  }

  // ----- Every step keeps the invariant -----

  /** What `q` relies on survives a journal write by a process with another key and another target. */
  predicate Undisturbed(j: Journal, j': Journal, q: Process) {
    && Extends(j, j')
    && (forall n <- j'.dir :: n.key == q.id.key ==> n in j.dir && j'.dir[n] == j.dir[n])
    && (q.phase.Cleared? ==> q.id.key !in j'.owner)
    && (forall h <- j'.log :: h.target == q.id.target ==> h in j.log || !q.phase.Cleared?)
  }

  lemma ProcessPersists(j: Journal, j': Journal, q: Process)
    requires ProcessSound(j, q) && Undisturbed(j, j', q)
    ensures ProcessSound(j', q)
  {
    if q.phase.Cleared? {
      forall h <- j'.log | h.target == q.id.target ensures Settled(j', h) {
        SettledPersists(j, j', h);
      }
    }
  }

  /** Two processes that both hold a lock of one family hold different ones. */
  lemma LocksExclude(s: State, p: nat, q: nat)
    requires LocksExclusive(s) && p in s.procs && q in s.procs && p != q
    ensures HoldsKey(s.procs[p].phase) && HoldsKey(s.procs[q].phase) ==>
              s.procs[p].id.key != s.procs[q].id.key
    ensures HoldsTarget(s.procs[p].phase) && HoldsTarget(s.procs[q].phase) ==>
              s.procs[p].id.target != s.procs[q].id.target
  {
    assert LocksHeld(s, p) && LocksHeld(s, q);
  }

  predicate JournalEvent(e: Event) {
    e.Rescan? || e.OpenClaim? || e.FillClaim? || e.OpenFinal? || e.FillFinal?
  }

  lemma JournalStepKeepsLocks(s: State, e: Event)
    requires JournalEvent(e) && e.pid in s.procs && LocksExclusive(s)
    ensures LocksExclusive(JournalStep(s, e))
  {
    hide ClaimPermitted;
    assert LocksHeld(s, e.pid);
    LocksFrame(s, JournalStep(s, e), e.pid);
  }

  lemma JournalStepKeepsJournal(s: State, e: Event)
    requires JournalEvent(e) && e.pid in s.procs
    requires JournalSound(s.journal) && ProcessSound(s.journal, s.procs[e.pid])
    ensures JournalSound(JournalStep(s, e).journal)
    ensures Extends(s.journal, JournalStep(s, e).journal)
  {
    hide ClaimPermitted, OwnersLogged, FilesExplained, KeysUnique, OneFilePerStep, EarlierSettled;
    var j := s.journal;
    var p := s.procs[e.pid];
    if e.OpenClaim? && p.phase.Cleared? && e.ioOk {
      AddClaimSound(j, p.id);
      AddClaimExtends(j, p.id);
    } else if e.FillClaim? && p.phase.Creating? {
      FillSound(j, ClaimEntry(p.id), Started(p.phase.startedAt), e.result);
    } else if e.OpenFinal? && p.phase.Live? && !e.outcome.InFlight? {
      AddFinalSound(j, p.id, e.outcome);
    } else if e.FillFinal? && p.phase.Ending? {
      FillSound(j, FinalEntry(p.id, p.phase.outcome), Finished(p.phase.startedAt, p.phase.finishedAt), e.result);
    }
  }

  lemma ClaimFileExists(j: Journal, id: Identity)
    requires OwnersLogged(j) && id in j.log
    ensures NameOf(ClaimEntry(id)) in j.dir
  {}

  lemma MoverStaysSound(s: State, e: Event)
    requires JournalEvent(e) && e.pid in s.procs
    requires JournalSound(s.journal) && ProcessSound(s.journal, s.procs[e.pid])
    ensures ProcessSound(JournalStep(s, e).journal, JournalStep(s, e).procs[e.pid])
  {
    hide ClaimPermitted, OwnersLogged, KeysUnique, OneFilePerStep, EarlierSettled;
    var p := s.procs[e.pid];
    if e.Rescan? && p.phase.TargetOwned? && e.ioOk && ClaimPermitted(s.journal.dir, p.id) {
      PermittedClaimIsFresh(s.journal, p.id);
    } else if e.OpenClaim? && p.phase.Cleared? {
      assert forall n <- s.journal.dir :: Explained(s.journal, n);
    }
  }

  lemma OthersUndisturbed(s: State, e: Event, q: nat)
    requires JournalEvent(e) && e.pid in s.procs && q in s.procs && q != e.pid
    requires LocksExclusive(s) && JournalSound(s.journal) && ProcessSound(s.journal, s.procs[e.pid])
    requires ProcessSound(s.journal, s.procs[q])
    requires HoldsKey(s.procs[q].phase) && HoldsTarget(s.procs[q].phase)
    ensures Undisturbed(s.journal, JournalStep(s, e).journal, s.procs[q])
  {
    hide ClaimPermitted, JournalSound, LocksExclusive, Extends, Settled, NoFinal;
    JournalStepKeepsJournal(s, e);
    LocksExclude(s, e.pid, q);
    var j, j' := s.journal, JournalStep(s, e).journal;
    var p := s.procs[e.pid];
    if e.OpenClaim? && p.phase.Cleared? {
      assert j'.log == j.log || j' == AddClaim(j, p.id);
      assert forall h <- j'.log :: h in j.log || h == p.id;
    } else if e.FillClaim? && p.phase.Creating? {
      assert NameOf(ClaimEntry(p.id)).key == p.id.key;
      assert j'.log == j.log;
    } else {
      assert j'.log == j.log;
    }
  }

  lemma JournalStepKeepsInv(s: State, e: Event)
    requires JournalEvent(e) && e.pid in s.procs && Inv(s)
    ensures Inv(JournalStep(s, e))
  {
    var s' := JournalStep(s, e);
    JournalStepKeepsLocks(s, e);
    JournalStepKeepsJournal(s, e);
    hide JournalStep, JournalSound, LocksExclusive, ProcessSound;
    OthersUnmoved(s, e);
    forall q <- s'.procs ensures ProcessSound(s'.journal, s'.procs[q]) {
      if q == e.pid {
        MoverStaysSound(s, e);
      } else {
        OtherStaysSound(s, e, q);
      }
    }
  }

  lemma OthersUnmoved(s: State, e: Event)
    requires JournalEvent(e) && e.pid in s.procs
    ensures JournalStep(s, e).procs.Keys == s.procs.Keys
    ensures forall q :: q in s.procs && q != e.pid ==> JournalStep(s, e).procs[q] == s.procs[q]
  {
    hide ClaimPermitted, AddClaim, AddFinal, FillEntry;
  }

  lemma OtherStaysSound(s: State, e: Event, q: nat)
    requires JournalEvent(e) && e.pid in s.procs && q in s.procs && q != e.pid && Inv(s)
    ensures ProcessSound(JournalStep(s, e).journal, s.procs[q])
  {
    hide JournalStep, JournalSound, LocksExclusive, Undisturbed;
    if HoldsKey(s.procs[q].phase) && HoldsTarget(s.procs[q].phase) {
      hide ProcessSound;
      OthersUndisturbed(s, e, q);
      ProcessPersists(s.journal, JournalStep(s, e).journal, s.procs[q]);
    }
  }

  lemma StepKeepsInv(s: State, e: Event)
    requires Inv(s)
    ensures Inv(Step(s, e))
  {
    hide JournalSound, ClaimPermitted;
    if e.Begin? || e.Crash? {
      assert forall pid <- s.procs :: LocksHeld(s, pid);
    } else if e.pid in s.procs {
      if JournalEvent(e) {
        JournalStepKeepsInv(s, e);
      } else {
        LockStepKeepsInv(s, e);
      }
    }
  }

  /** Lock traffic writes no entry, and no process enters a claiming phase by it. */
  lemma LockStepKeepsInv(s: State, e: Event)
    requires Inv(s) && e.pid in s.procs && !e.Begin? && !e.Crash? && !JournalEvent(e)
    ensures Inv(Step(s, e))
  {
    hide JournalSound, ClaimPermitted;
    if e.Release? {
      ReleaseKeepsLocks(s, e.pid, e.ioOk);
    } else {
      AcquireKeepsLocks(s, e);
    }
    hide LocksExclusive;
    assert Step(s, e).journal == s.journal;
  }

  lemma {:induction false} RunKeepsInv(s: State, events: seq<Event>)
    requires Inv(s)
    ensures Inv(Run(s, events))
    decreases |events|
  {
    if events != [] {
      StepKeepsInv(s, events[0]);
      RunKeepsInv(Step(s, events[0]), events[1..]);
    }
  }
}
