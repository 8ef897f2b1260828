/** What becomes of the journal once no scan can succeed: too many entry files, a torn one that nobody will complete, or a backdated one. */
module LearningJournalBlocked {
  import opened LearningJournal
  import opened LearningJournalSafety

  // ----- A full journal stays full, and takes no new claim -----

  predicate Full(s: State) { |s.journal.dir| > MAX_ENTRIES }

  /** The claim `h` was already past its second scan in `s`. */
  ghost predicate ClearedIn(s: State, h: Identity) {
    exists p <- s.procs :: s.procs[p].phase.Cleared? && s.procs[p].id == h
  }

  /** Nothing passed a scan on the way from `s` to `t`, and only claims cleared in `s` were added. */
  ghost predicate NoneAdmitted(s: State, t: State) {
    && s.journal.dir.Keys <= t.journal.dir.Keys
    && s.journal.log <= t.journal.log
    && (forall i :: |s.journal.log| <= i < |t.journal.log| ==> ClearedIn(s, t.journal.log[i]))
    && (forall p <- t.procs :: t.procs[p].phase.Cleared? ==> ClearedIn(s, t.procs[p].id))
  }

  lemma MoreFiles(a: Directory, b: Directory)
    requires a.Keys <= b.Keys
    ensures |a| <= |b|
  {
    assert |a| == |a.Keys| && |b| == |b.Keys|;
    SubsetSize(a.Keys, b.Keys);
  }

  lemma SubsetSize<T>(a: set<T>, b: set<T>)
    requires a <= b
    ensures |a| <= |b|
  {
    assert b == a + (b - a);
  }

  lemma JammedStep(s: State, e: Event)
    requires !ScanSucceeds(s.journal.dir)
    ensures NoneAdmitted(s, Step(s, e))
  {
    if e.pid in s.procs && JournalEvent(e) {
      hide ScanSucceeds, Latest, Records, KeySeen, TargetQuarantined;
      assert !ClaimPermitted(s.journal.dir, s.procs[e.pid].id);
      hide ClaimPermitted;
      JammedJournalStep(s, e);
    } else {
      JammedLockStep(s, e);
    }
  }

  lemma JammedJournalStep(s: State, e: Event)
    requires e.pid in s.procs && JournalEvent(e) && !ClaimPermitted(s.journal.dir, s.procs[e.pid].id)
    ensures NoneAdmitted(s, JournalStep(s, e))
  {
    hide ClaimPermitted;
  }

  lemma JammedLockStep(s: State, e: Event)
    requires !(e.pid in s.procs && JournalEvent(e))
    ensures NoneAdmitted(s, Step(s, e))
  {
    hide ClaimPermitted;
  }

  lemma AdmittedChain(s: State, t: State, u: State)
    requires NoneAdmitted(s, t) && NoneAdmitted(t, u)
    ensures NoneAdmitted(s, u)
  {
    forall h | ClearedIn(t, h) ensures ClearedIn(s, h) {
      var p :| p in t.procs && t.procs[p].phase.Cleared? && t.procs[p].id == h;
    }
    hide ClearedIn;
    forall i | |s.journal.log| <= i < |u.journal.log| ensures ClearedIn(s, u.journal.log[i]) {
      if i < |t.journal.log| { assert u.journal.log[i] == t.journal.log[i]; }
    }
  }

  /** From a full journal on, no scan succeeds and no claim is admitted on any target, whatever happens. */
  lemma {:induction false} FullIsForGood(s: State, events: seq<Event>)
    requires Full(s)
    ensures Full(Run(s, events)) && !ScanSucceeds(Run(s, events).journal.dir)
    ensures NoneAdmitted(s, Run(s, events))
    decreases |events|
  {
    hide Step, NoneAdmitted;
    if events == [] {
      NoneAdmittedYet(s);
    } else {
      var s1 := Step(s, events[0]);
      JammedStep(s, events[0]);
      AdmittedKeepsFull(s, s1);
      FullIsForGood(s1, events[1..]);
      AdmittedChain(s, s1, Run(s1, events[1..]));
    }
  }

  lemma NoneAdmittedYet(s: State)
    ensures NoneAdmitted(s, s)
  {}

  lemma AdmittedKeepsFull(s: State, t: State)
    requires Full(s) && NoneAdmitted(s, t)
    ensures Full(t)
  {
    MoreFiles(s.journal.dir, t.journal.dir);
  }

  // ----- Settled claims alone fill it -----

  /** The `n`-th claim, under its own key and on its own target. */
  function Nth(n: nat): Identity { Identity(n, n, 0, 0, 0, 0, 0) }

  function OneClaim(n: nat): seq<Event> {
    Acquisition(n, Nth(n)) + Writing(n, Completed, 0, 0) + Releasing(n)
  }

  function Claims(n: nat): seq<Event> {
    if n == 0 then [] else Claims(n - 1) + OneClaim(n - 1)
  }

  predicate AllIntact(dir: Directory) { forall f <- dir :: Intact(dir[f]) }

  /** `n` completed claims, with no process and no lock left behind. */
  ghost predicate QuietAfter(s: State, n: nat) {
    && Inv(s) && s.procs == map[] && s.keyLocks == map[] && s.targetLocks == map[]
    && |s.journal.dir| == 2 * n
    && AllIntact(s.journal.dir)
    && (forall h <- s.journal.log :: h.key < n && h.target < n)
  }

  /** A quiet journal that is not yet past its limit permits the next claim. */
  lemma NextPermitted(s: State, n: nat)
    requires QuietAfter(s, n) && 2 * n <= MAX_ENTRIES
    ensures ClaimPermitted(s.journal.dir, Nth(n))
  {
    QuietFacts(s, n);
    hide QuietAfter, AllIntact, JournalSound, ScanSucceeds, Readable, HistoriesSound, Records, Latest, ClaimPermitted;
    WholeFilesAreScanned(s.journal);
    EntriesAreEarlier(s.journal, n);
    UnseenIsPermitted(s.journal.dir, Nth(n));
  }

  lemma WholeFilesAreScanned(j: Journal)
    requires JournalSound(j) && AllIntact(j.dir) && |j.dir| <= MAX_ENTRIES
    ensures ScanSucceeds(j.dir) && Readable(j.dir)
  {
    hide JournalSound, HistoriesSound, Readable, Records;
    SoundScan(j);
  }

  lemma EntriesAreEarlier(j: Journal, n: nat)
    requires JournalSound(j) && Readable(j.dir) && forall h <- j.log :: h.key < n && h.target < n
    ensures forall e <- Records(j.dir) :: e.id.key != n && e.id.target != n
  {
    hide JournalSound, Readable, Records;
    forall e | e in Records(j.dir) ensures e.id.key != n && e.id.target != n {
      EntryIsLogged(j, e);
    }
  }

  lemma QuietFacts(s: State, n: nat)
    requires QuietAfter(s, n)
    ensures JournalSound(s.journal) && |s.journal.dir| == 2 * n
    ensures forall h <- s.journal.log :: h.key < n && h.target < n
    ensures AllIntact(s.journal.dir)
  {}

  lemma UnseenIsPermitted(dir: Directory, id: Identity)
    requires ScanSucceeds(dir) && forall e <- Records(dir) :: e.id.key != id.key && e.id.target != id.target
    ensures ClaimPermitted(dir, id)
  {
    hide Readable, HistoriesSound, Records;
  }

  lemma EntryIsLogged(j: Journal, e: Entry)
    requires JournalSound(j) && Readable(j.dir) && e in Records(j.dir)
    ensures e.id in j.log
  {
    hide KeysUnique, EarlierSettled, OneFilePerStep;
    var f :| f in j.dir && j.dir[f].entry == e;
    assert FileReadable(j.dir, f);
    assert Explained(j, f);
  }

  lemma OneMoreFile(d: Directory, name: FileName, c: Content)
    requires name !in d
    ensures |d[name := c]| == |d| + 1
  {
    assert d[name := c].Keys == d.Keys + {name};
    assert |d[name := c]| == |d[name := c].Keys| && |d| == |d.Keys|;
  }

  /** Two more files, both whole. */
  lemma TwoMoreFiles(j: Journal, id: Identity)
    requires NameOf(ClaimEntry(id)) !in j.dir && NameOf(FinalEntry(id, Completed)) !in j.dir
    requires AllIntact(j.dir)
    ensures |Written(j, id, Completed, 0, 0).dir| == |j.dir| + 2 && AllIntact(Written(j, id, Completed, 0, 0).dir)
  {
    var a, b := NameOf(ClaimEntry(id)), NameOf(FinalEntry(id, Completed));
    var d := Written(j, id, Completed, 0, 0).dir;
    assert d == j.dir[a := Whole(ClaimEntry(id), Started(0))][b := Whole(FinalEntry(id, Completed), Finished(0, 0))];
    assert a != b;
    hide Written, NameOf;
    OneMoreFile(j.dir, a, Whole(ClaimEntry(id), Started(0)));
    OneMoreFile(j.dir[a := Whole(ClaimEntry(id), Started(0))], b, Whole(FinalEntry(id, Completed), Finished(0, 0)));
  }

  lemma {:induction false} ClaimsAreQuiet(n: nat)
    requires 2 * n <= MAX_ENTRIES + 2
    ensures QuietAfter(Run(Initial, Claims(n)), n)
  {
    hide Run, Step, Inv, ClaimPermitted, Written, HasFinal;
    if n == 0 {
      InitialQuiet();
    } else {
      ClaimsAreQuiet(n - 1);
      RunCat(Initial, Claims(n - 1), OneClaim(n - 1));
      OneMoreQuiet(Run(Initial, Claims(n - 1)), n - 1);
    }
  }

  lemma InitialQuiet()
    ensures QuietAfter(Run(Initial, Claims(0)), 0)
  {
    InitialInv();
  }

  lemma OneMoreQuiet(s: State, n: nat)
    requires QuietAfter(s, n) && 2 * n <= MAX_ENTRIES
    ensures QuietAfter(Run(s, OneClaim(n)), n + 1)
  {
    hide Run, Step, Inv, ClaimPermitted, Written, HasFinal, NameOf, AllIntact, Acquisition, Writing, Releasing;
    NextPermitted(s, n);
    InvSound(s);
    UncontendedClaimCompletes(s, n, Nth(n), Completed, 0, 0);
    NoFileYet(s.journal, Nth(n), Completed);
    TwoMoreFiles(s.journal, Nth(n));
    RunKeepsInv(s, OneClaim(n));
    QuietGrows(s, Run(s, OneClaim(n)), n);
  }

  lemma QuietGrows(s: State, t: State, n: nat)
    requires QuietAfter(s, n) && Inv(t)
    requires t.procs == s.procs && t.keyLocks == s.keyLocks && t.targetLocks == s.targetLocks
    requires t.journal.log == s.journal.log + [Nth(n)]
    requires |t.journal.dir| == |s.journal.dir| + 2 && AllIntact(t.journal.dir)
    ensures QuietAfter(t, n + 1)
  {
    hide Inv, AllIntact;
  }

  lemma InvSound(s: State)
    requires Inv(s)
    ensures JournalSound(s.journal)
  {}

  /**
   Settled claims alone, each on its own target, bring the journal past its limit with every file whole
   and nobody active; from then on no claim is ever admitted again, on any target.
   */
  lemma JournalFillsUp(n: nat, more: seq<Event>)
    requires n == MAX_ENTRIES / 2 + 1
    ensures var s := Run(Initial, Claims(n));
            && s.procs == map[] && |s.journal.dir| == 2 * n && AllIntact(s.journal.dir)
            && Full(s) && Run(s, more).journal.log == s.journal.log
  {
    hide Run, Claims, Inv, NoneAdmitted, ScanSucceeds;
    ClaimsAreQuiet(n);
    var s := Run(Initial, Claims(n));
    FullIsForGood(s, more);
    NobodyToAdmit(s, Run(s, more));
  }

  lemma NobodyToAdmit(s: State, t: State)
    requires NoneAdmitted(s, t) && s.procs == map[]
    ensures t.journal.log == s.journal.log
  {
    if |t.journal.log| > |s.journal.log| { SomebodyWasCleared(s, t); }
  }

  lemma SomebodyWasCleared(s: State, t: State)
    requires NoneAdmitted(s, t) && |t.journal.log| > |s.journal.log|
    ensures exists h :: ClearedIn(s, h)
  {
    assert ClearedIn(s, t.journal.log[|s.journal.log|]);
  }

  // ----- One torn file is enough -----

  /** The file is torn and no process is left that could complete it. */
  ghost predicate Stuck(s: State, n: FileName) {
    && n in s.journal.dir && s.journal.dir[n].Torn?
    && forall p <- s.procs :: s.procs[p].id.key == n.key ==> !MayStillFinish(s.procs[p].phase)
  }

  lemma StuckIsUnreadable(s: State, n: FileName)
    requires Stuck(s, n)
    ensures !ScanSucceeds(s.journal.dir)
  {
    assert !FileReadable(s.journal.dir, n);
  }

  lemma StuckStep(s: State, e: Event, n: FileName)
    requires Inv(s) && Stuck(s, n)
    ensures Stuck(Step(s, e), n)
  {
    hide JournalSound, ProcessesSound, LocksExclusive, ClaimPermitted, Stuck;
    if e.pid in s.procs && JournalEvent(e) {
      StuckFacts(s, e.pid, n);
      StuckJournalStep(s, e, n);
    } else {
      hide Step;
      StuckLockStep(s, e, n);
    }
  }

  lemma StuckFacts(s: State, pid: nat, n: FileName)
    requires Inv(s) && Stuck(s, n) && pid in s.procs
    ensures n.key in s.journal.owner && (s.procs[pid].phase.Cleared? ==> s.procs[pid].id.key !in s.journal.owner)
  {
    hide LocksExclusive, KeysUnique, OneFilePerStep, EarlierSettled, OwnersLogged, Settled, NoFinal;
    assert ProcessSound(s.journal, s.procs[pid]);
    assert Explained(s.journal, n);
  }

  lemma StuckJournalStep(s: State, e: Event, n: FileName)
    requires e.pid in s.procs && JournalEvent(e) && Stuck(s, n)
    requires n.key in s.journal.owner && (s.procs[e.pid].phase.Cleared? ==> s.procs[e.pid].id.key !in s.journal.owner)
    ensures Stuck(JournalStep(s, e), n)
  {
    hide ClaimPermitted;
  }

  lemma StuckLockStep(s: State, e: Event, n: FileName)
    requires !(e.pid in s.procs && JournalEvent(e)) && Stuck(s, n)
    ensures Stuck(Step(s, e), n)
  {
    hide ClaimPermitted;
  }

  /** A torn file that nobody will complete stops every later claim, on every target, for good. */
  lemma {:induction false} TornIsForGood(s: State, events: seq<Event>, n: FileName)
    requires Inv(s) && Stuck(s, n)
    ensures Stuck(Run(s, events), n) && !ScanSucceeds(Run(s, events).journal.dir)
    ensures NoneAdmitted(s, Run(s, events))
    decreases |events|
  {
    hide Step, NoneAdmitted, Inv, Stuck, ScanSucceeds;
    StuckIsUnreadable(s, n);
    if events == [] {
      NoneAdmittedYet(s);
    } else {
      var s1 := Step(s, events[0]);
      JammedStep(s, events[0]);
      StuckStep(s, events[0], n);
      StepKeepsInv(s, events[0]);
      TornIsForGood(s1, events[1..], n);
      AdmittedChain(s, s1, Run(s1, events[1..]));
    }
  }

  function TornRun(): seq<Event> {
    Acquisition(0, Nth(0)) + [Rescan(0, true), OpenClaim(0, true, 0), Crash(0)]
  }

  /** One process that dies while its claim file is open: from then on no claim is admitted on any other target either. */
  lemma CrashInClaimBlocksAll(more: seq<Event>)
    ensures var s := Run(Initial, TornRun());
            && s.procs == map[] && Stuck(s, NameOf(ClaimEntry(Nth(0)))) && s.journal.log == [Nth(0)]
            && Run(s, more).journal.log == [Nth(0)]
  {
    hide Run, NoneAdmitted, ScanSucceeds, Inv;
    InitialInv();
    RunKeepsInv(Initial, TornRun());
    TornRunEnds();
    var s := Run(Initial, TornRun());
    TornIsForGood(s, more, NameOf(ClaimEntry(Nth(0))));
    NobodyToAdmit(s, Run(s, more));
  }

  lemma TornRunEnds()
    ensures var s := Run(Initial, TornRun());
            s.procs == map[] && Stuck(s, NameOf(ClaimEntry(Nth(0)))) && s.journal.log == [Nth(0)]
  {
    hide Run, ClaimPermitted, Step, Acquisition, Stuck, AddClaim, NameOf;
    EmptyPermits(Nth(0));
    Acquires(Initial, 0, Nth(0));
    var held := Holding(Initial, 0, Nth(0), TargetOwned);
    var tail := [Rescan(0, true), OpenClaim(0, true, 0), Crash(0)];
    RunCat(Initial, Acquisition(0, Nth(0)), tail);
    DiesInClaim(held);
  }

  /** A process that holds both locks of an empty journal, opens its claim file and dies. */
  lemma DiesInClaim(s: State)
    requires s == Holding(Initial, 0, Nth(0), TargetOwned)
    ensures var t := Run(s, [Rescan(0, true), OpenClaim(0, true, 0), Crash(0)]);
            t.procs == map[] && Stuck(t, NameOf(ClaimEntry(Nth(0)))) && t.journal.log == [Nth(0)]
  {
    hide Run, ClaimPermitted, Step;
    EmptyPermits(Nth(0));
    var cleared := At(s, 0, Cleared, s.journal);
    RunCons(s, Rescan(0, true), [OpenClaim(0, true, 0), Crash(0)]);
    RunCons(cleared, OpenClaim(0, true, 0), [Crash(0)]);
    assert [Rescan(0, true)] + [OpenClaim(0, true, 0), Crash(0)] == [Rescan(0, true), OpenClaim(0, true, 0), Crash(0)];
    assert [OpenClaim(0, true, 0)] + [Crash(0)] == [OpenClaim(0, true, 0), Crash(0)];
    RescanClears(s, 0);
    OpenClaims(cleared, 0, 0);
    RunOne(Step(cleared, OpenClaim(0, true, 0)), Crash(0));
    LastCrash(Step(cleared, OpenClaim(0, true, 0)));
  }

  lemma LastCrash(s: State)
    requires s.procs.Keys == {0}
    ensures Step(s, Crash(0)) == s.(procs := map[])
  {
    assert s.procs - {0} == map[];
  }

  lemma EmptyPermits(id: Identity)
    ensures ClaimPermitted(map[], id)
  {
  }

  // ----- One backdated file is enough -----

  lemma WholeStays(s: State, e: Event, n: FileName)
    requires Inv(s) && n in s.journal.dir && s.journal.dir[n].Whole?
    ensures n in Step(s, e).journal.dir && Step(s, e).journal.dir[n] == s.journal.dir[n]
  {
    hide JournalSound, LocksExclusive, ClaimPermitted;
    if e.pid in s.procs && JournalEvent(e) {
      assert ProcessSound(s.journal, s.procs[e.pid]);
      hide ProcessesSound, ProcessSound, JournalStep;
      JournalStepKeepsJournal(s, e);
    } else {
      hide ProcessesSound, ProcessSound;
      LockStepWritesNothing(s, e);
    }
  }

  lemma LockStepWritesNothing(s: State, e: Event)
    requires !(e.pid in s.procs && JournalEvent(e))
    ensures Step(s, e).journal == s.journal
  {
    hide ClaimPermitted;
  }

  lemma BackdatedIsUnreadable(dir: Directory, n: FileName)
    requires n in dir && Backdated(dir[n])
    ensures !ScanSucceeds(dir)
  {
    assert !FileReadable(dir, n);
  }

  /** A backdated file is never rewritten: it stops every later claim, on every target, for good. */
  lemma {:induction false} BackdatedIsForGood(s: State, events: seq<Event>, n: FileName)
    requires Inv(s) && n in s.journal.dir && Backdated(s.journal.dir[n])
    ensures var t := Run(s, events);
            && n in t.journal.dir && t.journal.dir[n] == s.journal.dir[n] && !ScanSucceeds(t.journal.dir)
            && NoneAdmitted(s, t)
    decreases |events|
  {
    hide Step, NoneAdmitted, Inv, ScanSucceeds;
    BackdatedIsUnreadable(s.journal.dir, n);
    if events == [] {
      NoneAdmittedYet(s);
    } else {
      var s1 := Step(s, events[0]);
      JammedStep(s, events[0]);
      WholeStays(s, events[0], n);
      StepKeepsInv(s, events[0]);
      BackdatedIsForGood(s1, events[1..], n);
      AdmittedChain(s, s1, Run(s1, events[1..]));
    }
  }

  /** Started when the clock showed one, completed when it showed zero. */
  function BackwardRun(): seq<Event> {
    Acquisition(0, Nth(0)) + Writing(0, Completed, 1, 0) + Releasing(0)
  }

  /**
   One claim that completes under a clock that was set back meanwhile: two whole files, nobody active, no lock
   held, and no claim is ever admitted again, on any target.
   */
  lemma BackwardClockBlocksAll(more: seq<Event>)
    ensures var s := Run(Initial, BackwardRun());
            && s.procs == map[] && s.keyLocks == map[] && s.targetLocks == map[]
            && HasFinal(s.journal, Nth(0), Completed) && s.journal.log == [Nth(0)]
            && |s.journal.dir| == 2 && (forall n <- s.journal.dir :: s.journal.dir[n].Whole?)
            && Run(s, more).journal.log == [Nth(0)]
  {
    hide Run, NoneAdmitted, ScanSucceeds, Inv, HasFinal, Acquisition, Writing, Releasing, ClaimPermitted;
    InitialInv();
    RunKeepsInv(Initial, BackwardRun());
    EmptyPermits(Nth(0));
    UncontendedClaimCompletes(Initial, 0, Nth(0), Completed, 1, 0);
    var s := Run(Initial, BackwardRun());
    BackwardFiles();
    BackdatedIsForGood(s, more, NameOf(FinalEntry(Nth(0), Completed)));
    NobodyToAdmit(s, Run(s, more));
  }

  lemma BackwardFiles()
    ensures var d := Written(Initial.journal, Nth(0), Completed, 1, 0).dir;
            && |d| == 2 && (forall n <- d :: d[n].Whole?)
            && NameOf(FinalEntry(Nth(0), Completed)) in d && Backdated(d[NameOf(FinalEntry(Nth(0), Completed))])
  {
    var a, b := NameOf(ClaimEntry(Nth(0))), NameOf(FinalEntry(Nth(0), Completed));
    var d := Written(Initial.journal, Nth(0), Completed, 1, 0).dir;
    assert d.Keys == {a, b};
    assert |d| == |d.Keys|;
  }
}
