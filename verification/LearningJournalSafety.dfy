/** What the claim protocol guarantees over every run, from the empty journal on. */
module LearningJournalSafety {
  import opened LearningJournal

  lemma InitialInv()
    ensures Inv(Initial)
  {}

  lemma ReachableInv(events: seq<Event>)
    ensures Inv(Run(Initial, events))
  {
    InitialInv();
    RunKeepsInv(Initial, events);
  }

  /** Two attempts never hold claims on one target, or under one idempotency key, at the same time. */
  lemma AtMostOneLiveClaim(events: seq<Event>, p: nat, q: nat)
    requires var s := Run(Initial, events);
             && p in s.procs && q in s.procs && p != q
             && MayStillFinish(s.procs[p].phase) && MayStillFinish(s.procs[q].phase)
    ensures var s := Run(Initial, events);
            && s.procs[p].id.target != s.procs[q].id.target
            && s.procs[p].id.key != s.procs[q].id.key
  {
    hide JournalSound, ProcessesSound, Run;
    ReachableInv(events);
    LocksExclude(Run(Initial, events), p, q);
  }

  /** A key names one history for good: one claim, then at most one final entry of the same identity. */
  lemma OneHistoryPerKey(events: seq<Event>)
    ensures var j := Run(Initial, events).journal;
            && (forall a, b :: 0 <= a < b < |j.log| ==> j.log[a].key != j.log[b].key)
            && (forall n <- j.dir, m <- j.dir :: n.key == m.key && n.sequence == m.sequence ==> n == m)
            && (forall n <- j.dir, m <- j.dir :: n.key == m.key && j.dir[n].Whole? && j.dir[m].Whole? ==>
                  j.dir[n].entry.id == j.dir[m].entry.id)
  {
    ReachableInv(events);
    hide Run, LocksExclusive, ProcessesSound, OwnersLogged, EarlierSettled;
    var j := Run(Initial, events).journal;
    forall n <- j.dir, m <- j.dir | n.key == m.key && j.dir[n].Whole? && j.dir[m].Whole?
      ensures j.dir[n].entry.id == j.dir[m].entry.id
    {
      assert Explained(j, n) && Explained(j, m);
    }
  }

  /** Only the last history of a target may be unfinished, ambiguous or torn. */
  lemma AllButLastSettled(events: seq<Event>, a: nat, b: nat)
    requires var j := Run(Initial, events).journal;
             a < b < |j.log| && j.log[a].target == j.log[b].target
    ensures var j := Run(Initial, events).journal;
            HasFinal(j, j.log[a], Completed) || HasFinal(j, j.log[a], Failed)
  {
    hide Run, LocksExclusive, ProcessesSound, OwnersLogged, FilesExplained, KeysUnique, OneFilePerStep;
    ReachableInv(events);
  }

  // ----- Quarantine -----

  /** Claimed, not settled, and no process is left that could still settle it. */
  predicate Abandoned(s: State, h: Identity) {
    && h in s.journal.log
    && !Settled(s.journal, h)
    && forall p <- s.procs :: s.procs[p].id == h ==> CannotSettle(s.procs[p].phase)
  }

  predicate CannotSettle(p: Phase) {
    MayStillFinish(p) ==> p.Ending? && p.outcome.Ambiguous?
  }

  lemma CrashAbandons(s: State, p: nat)
    requires Inv(s) && p in s.procs && MayStillFinish(s.procs[p].phase)
    ensures Abandoned(Step(s, Crash(p)), s.procs[p].id)
  {
    hide JournalSound;
    assert ProcessSound(s.journal, s.procs[p]);
    assert s.procs[p].id in s.journal.log;
    forall q <- s.procs | q != p && s.procs[q].id == s.procs[p].id
      ensures CannotSettle(s.procs[q].phase)
    {
      LocksExclude(s, p, q);
    }
    if s.procs[p].phase.Ending? { PendingFinalNotSettled(s, p); }
  }

  lemma PendingFinalNotSettled(s: State, p: nat)
    requires Inv(s) && p in s.procs && s.procs[p].phase.Ending?
    ensures !Settled(s.journal, s.procs[p].id)
  {
    hide OwnersLogged, FilesExplained, KeysUnique, EarlierSettled, LocksExclusive;
    assert ProcessSound(s.journal, s.procs[p]);
  }

  lemma AmbiguousAbandons(s: State, h: Identity)
    requires Inv(s) && h in s.journal.log && HasFinal(s.journal, h, Ambiguous)
    ensures Abandoned(s, h)
  {
    hide OwnersLogged, FilesExplained, KeysUnique, EarlierSettled, LocksExclusive;
    var f := NameOf(FinalEntry(h, Ambiguous));
    forall p <- s.procs | s.procs[p].id == h ensures CannotSettle(s.procs[p].phase) {
      assert ProcessSound(s.journal, s.procs[p]);
      assert s.procs[p].phase.Creating? || s.procs[p].phase.Live? ==> f.sequence == 0;
    }
  }

  lemma AbandonedPersists(s: State, e: Event, h: Identity)
    requires Inv(s) && Abandoned(s, h)
    ensures Abandoned(Step(s, e), h)
  {
    hide LocksExclusive, FilesExplained, KeysUnique, OneFilePerStep, EarlierSettled, ClaimPermitted;
    if e.pid in s.procs && JournalEvent(e) {
      assert ProcessSound(s.journal, s.procs[e.pid]);
      OwnerOf(s.journal, h);
      hide OwnersLogged, ProcessesSound, ProcessSound, JournalStep, Abandoned;
      AbandonedThroughJournalStep(s, e, h);
    } else {
      AbandonedThroughLockStep(s, e, h);
    }
  }

  lemma AbandonedThroughLockStep(s: State, e: Event, h: Identity)
    requires Abandoned(s, h) && !(e.pid in s.procs && JournalEvent(e))
    ensures Abandoned(Step(s, e), h)
  {
    hide Settled, ClaimPermitted;
  }

  lemma AbandonedThroughJournalStep(s: State, e: Event, h: Identity)
    requires e.pid in s.procs && JournalEvent(e) && Abandoned(s, h)
    requires h.key in s.journal.owner && ProcessSound(s.journal, s.procs[e.pid])
    ensures Abandoned(JournalStep(s, e), h)
  {
    hide ClaimPermitted, NoFinal;
    var s' := JournalStep(s, e);
    assert s'.procs.Keys == s.procs.Keys;
    assert forall q <- s.procs :: q != e.pid ==> s'.procs[q] == s.procs[q];
    UnsettledThroughJournalStep(s, e, h);
    hide Settled;
  }

  /** Only the process of a claim can write its final entry, and it may only finish in `Ending`. */
  lemma UnsettledThroughJournalStep(s: State, e: Event, h: Identity)
    requires e.pid in s.procs && JournalEvent(e) && !Settled(s.journal, h)
    requires s.procs[e.pid].id == h ==> CannotSettle(s.procs[e.pid].phase)
    ensures !Settled(JournalStep(s, e).journal, h)
  {
    hide ClaimPermitted;
  }

  /** Once abandoned, a history blocks its target in every continuation: no claim follows it. */
  lemma {:induction false} QuarantineIsPermanent(s: State, events: seq<Event>, h: Identity)
    requires Inv(s) && Abandoned(s, h)
    ensures var j := Run(s, events).journal;
            && s.journal.log <= j.log
            && (forall i :: |s.journal.log| <= i < |j.log| ==> j.log[i].target != h.target)
    decreases |events|
  {
    hide Inv, Step, Abandoned;
    if events != [] {
      var s1 := Step(s, events[0]);
      StepKeepsInv(s, events[0]);
      AbandonedPersists(s, events[0], h);
      NextClaimElsewhere(s, events[0], h);
      QuarantineIsPermanent(s1, events[1..], h);
    }
  }

  lemma NextClaimElsewhere(s: State, e: Event, h: Identity)
    requires Inv(s) && Abandoned(s, h)
    ensures var log' := Step(s, e).journal.log;
            log' == s.journal.log ||
            (|log'| == |s.journal.log| + 1 && s.journal.log <= log' && log'[|s.journal.log|].target != h.target)
  {
    hide LocksExclusive, JournalSound, ClaimPermitted;
    if e.pid in s.procs { assert ProcessSound(s.journal, s.procs[e.pid]); }
  }

  // ----- The journal accepts what the protocol writes -----

  /**
   A scan rejects the files of a run exactly when one of them is torn, or says that its claim was finished
   before it was started, or there are more than it will read.
   */
  lemma ScanRejectsExactly(events: seq<Event>)
    ensures var dir := Run(Initial, events).journal.dir;
            !ScanSucceeds(dir) <==> |dir| > MAX_ENTRIES || exists n <- dir :: dir[n].Torn? || Backdated(dir[n])
  {
    ReachableInv(events);
    hide Run, LocksExclusive, ProcessesSound, JournalSound, ScanSucceeds, Backdated;
    SoundScan(Run(Initial, events).journal);
  }

  /** Whole, and finished no earlier than started. */
  predicate Intact(c: Content) { c.Whole? && !Backdated(c) }

  lemma SoundScan(j: Journal)
    requires JournalSound(j)
    ensures !ScanSucceeds(j.dir) <==> |j.dir| > MAX_ENTRIES || exists n <- j.dir :: j.dir[n].Torn? || Backdated(j.dir[n])
  {
    hide JournalSound, Readable, HistoriesSound, Records, Backdated;
    if forall n <- j.dir :: Intact(j.dir[n]) {
      WholeFilesScan(j);
    } else {
      SpoiltIsUnreadable(j.dir);
    }
  }

  lemma WholeFilesScan(j: Journal)
    requires JournalSound(j) && forall n <- j.dir :: Intact(j.dir[n])
    ensures Readable(j.dir) && HistoriesSound(Records(j.dir))
  {
    WholeFilesReadable(j);
    WholeFilesSound(j);
  }

  lemma SpoiltIsUnreadable(dir: Directory)
    requires !forall n <- dir :: Intact(dir[n])
    ensures !Readable(dir)
  {
    var n :| n in dir && !Intact(dir[n]);
    assert !FileReadable(dir, n);
  }

  // ----- A clock that does not go back -----

  /** No claim is finished at an earlier reading than it was started at. */
  predicate FinishesLater(s: State, e: Event) {
    e.OpenFinal? && e.pid in s.procs && s.procs[e.pid].phase.Live? ==> s.procs[e.pid].phase.startedAt <= e.now
  }

  predicate ClockForward(s: State, events: seq<Event>)
    decreases |events|
  {
    events != [] ==> FinishesLater(s, events[0]) && ClockForward(Step(s, events[0]), events[1..])
  }

  predicate DatedForward(s: State) {
    && (forall n <- s.journal.dir :: !Backdated(s.journal.dir[n]))
    && (forall p <- s.procs :: s.procs[p].phase.Ending? ==> s.procs[p].phase.startedAt <= s.procs[p].phase.finishedAt)
  }

  lemma StepDatedForward(s: State, e: Event)
    requires DatedForward(s) && FinishesLater(s, e)
    ensures DatedForward(Step(s, e))
  {
    hide ClaimPermitted, NameOf;
    if e.pid in s.procs && JournalEvent(e) {
      JournalStepDatedForward(s, e);
    }
  }

  lemma JournalStepDatedForward(s: State, e: Event)
    requires DatedForward(s) && FinishesLater(s, e) && e.pid in s.procs && JournalEvent(e)
    ensures DatedForward(JournalStep(s, e))
  {
    hide ClaimPermitted, NameOf;
  }

  lemma {:induction false} RunDatedForward(s: State, events: seq<Event>)
    requires DatedForward(s) && ClockForward(s, events)
    ensures DatedForward(Run(s, events))
    decreases |events|
  {
    hide Step, DatedForward, FinishesLater;
    if events != [] {
      StepDatedForward(s, events[0]);
      RunDatedForward(Step(s, events[0]), events[1..]);
    }
  }

  /** With a clock that does not go back while a claim is open, only torn files and too many of them stop a scan. */
  lemma ForwardScanRejectsExactly(events: seq<Event>)
    requires ClockForward(Initial, events)
    ensures var dir := Run(Initial, events).journal.dir;
            !ScanSucceeds(dir) <==> |dir| > MAX_ENTRIES || exists n <- dir :: dir[n].Torn?
  {
    RunDatedForward(Initial, events);
    ScanRejectsExactly(events);
    hide Run, ScanSucceeds, Backdated;
  }

  lemma WholeFilesReadable(j: Journal)
    requires FilesExplained(j) && OwnersLogged(j) && forall n <- j.dir :: Intact(j.dir[n])
    ensures Readable(j.dir)
    ensures forall e <- Records(j.dir) :: e.id.key in j.owner && j.owner[e.id.key] == e.id && EntryValid(e)
  {
    forall n <- j.dir
      ensures FileReadable(j.dir, n)
      ensures var e := j.dir[n].entry; e.id.key in j.owner && j.owner[e.id.key] == e.id && EntryValid(e)
    {
      assert Explained(j, n);
    }
  }

  lemma WholeFilesSound(j: Journal)
    requires OwnersLogged(j) && OneFilePerStep(j) && Readable(j.dir)
    requires FilesExplained(j)
    requires forall e <- Records(j.dir) :: e.id.key in j.owner && j.owner[e.id.key] == e.id && EntryValid(e)
    ensures HistoriesSound(Records(j.dir))
  {
    var records := Records(j.dir);
    forall e <- records ensures e.sequence <= 1 && ClaimPresent(records, e) {
      var h := j.owner[e.id.key];
      assert h in j.log;
      ClaimOnRecord(j, h);
    }
    hide OwnersLogged, FilesExplained;
    forall a <- records, b <- records | SameHistory(a, b)
      ensures a.id == b.id && (a.sequence == b.sequence ==> a == b)
    {
      var n :| n in j.dir && j.dir[n].entry == a;
      var m :| m in j.dir && j.dir[m].entry == b;
      assert FileReadable(j.dir, n) && FileReadable(j.dir, m);
    }
  }

  // ----- Nothing stands in the way of a permitted claim -----

  lemma RunCons(s: State, e: Event, rest: seq<Event>)
    ensures Run(s, [e] + rest) == Run(Step(s, e), rest)
  {
    assert ([e] + rest)[1..] == rest;
  }

  lemma {:induction false} RunCat(s: State, a: seq<Event>, b: seq<Event>)
    ensures Run(s, a + b) == Run(Run(s, a), b)
    decreases |a|
  {
    hide Step;
    if a == [] {
      assert a + b == b;
    } else {
      assert (a + b)[1..] == a[1..] + b;
      RunCat(Step(s, a[0]), a[1..], b);
    }
  }

  function Acquisition(pid: nat, id: Identity): seq<Event> {
    [Begin(pid, id), MakeKeyDir(pid, true), OwnKey(pid, true), MakeTargetDir(pid, true), OwnTarget(pid, true)]
  }

  function Writing(pid: nat, outcome: Outcome, started: int, finished: int): seq<Event> {
    [Rescan(pid, true), OpenClaim(pid, true, started), FillClaim(pid, Durable), OpenFinal(pid, outcome, finished),
     FillFinal(pid, Durable)]
  }

  function Releasing(pid: nat): seq<Event> {
    [Release(pid, true), Release(pid, true), Release(pid, true), Release(pid, true)]
  }

  function Holding(s: State, pid: nat, id: Identity, phase: Phase): State {
    s.(procs := s.procs[pid := Process(id, phase, s.nonce, s.nonce + 1)],
       keyLocks := s.keyLocks[id.key := Owned(pid, s.nonce)],
       targetLocks := s.targetLocks[id.target := Owned(pid, s.nonce + 1)], nonce := s.nonce + 2)
  }

  lemma RunOne(s: State, e: Event)
    ensures Run(s, [e]) == Step(s, e)
  {
    assert [e][1..] == [];
  }

  lemma RunFive(s: State, a: Event, b: Event, c: Event, d: Event, e: Event)
    ensures Run(s, [a, b, c, d, e]) == Step(Step(Step(Step(Step(s, a), b), c), d), e)
  {
    hide Step;
    RunCons(s, a, [b, c, d, e]);
    RunCons(Step(s, a), b, [c, d, e]);
    RunCons(Step(Step(s, a), b), c, [d, e]);
    RunCons(Step(Step(Step(s, a), b), c), d, [e]);
    RunOne(Step(Step(Step(Step(s, a), b), c), d), e);
    assert [a, b, c, d, e] == [a] + [b, c, d, e] && [b, c, d, e] == [b] + [c, d, e];
    assert [c, d, e] == [c] + [d, e] && [d, e] == [d] + [e];
  }

  lemma Acquires(s: State, pid: nat, id: Identity)
    requires pid !in s.procs && ClaimPermitted(s.journal.dir, id)
    requires id.key !in s.keyLocks && id.target !in s.targetLocks
    ensures Run(s, Acquisition(pid, id)) == Holding(s, pid, id, TargetOwned)
  {
    hide ClaimPermitted, HoldsKey, HoldsTarget;
    var s1 := Step(s, Begin(pid, id));
    var s2 := Step(s1, MakeKeyDir(pid, true));
    assert s2 == s1.(procs := s1.procs[pid := Process(id, KeyDir, 0, 0)], keyLocks := s.keyLocks[id.key := Bare(pid)]);
    var s3 := Step(s2, OwnKey(pid, true));
    var s4 := Step(s3, MakeTargetDir(pid, true));
    var s5 := Step(s4, OwnTarget(pid, true));
    RunFive(s, Begin(pid, id), MakeKeyDir(pid, true), OwnKey(pid, true), MakeTargetDir(pid, true), OwnTarget(pid, true));
    assert s5.keyLocks == s.keyLocks[id.key := Owned(pid, s.nonce)];
    assert s5.targetLocks == s.targetLocks[id.target := Owned(pid, s.nonce + 1)];
    assert s5.procs == s.procs[pid := Process(id, TargetOwned, s.nonce, s.nonce + 1)];
  }

  function Written(j: Journal, id: Identity, outcome: Outcome, started: int, finished: int): Journal {
    FillEntry(AddFinal(FillEntry(AddClaim(j, id), ClaimEntry(id), Started(started), Durable), id, outcome),
              FinalEntry(id, outcome), Finished(started, finished), Durable)
  }

  /** `s` with process `pid` moved to `phase` and journal `j`. */
  function At(s: State, pid: nat, phase: Phase, j: Journal): State
    requires pid in s.procs
  {
    s.(procs := s.procs[pid := s.procs[pid].(phase := phase)], journal := j)
  }

  lemma AtAt(s: State, pid: nat, a: Phase, j: Journal, b: Phase, k: Journal)
    requires pid in s.procs
    ensures At(At(s, pid, a, j), pid, b, k) == At(s, pid, b, k)
  {
    var t := At(At(s, pid, a, j), pid, b, k);
    assert t.procs[pid] == s.procs[pid].(phase := b);
    assert t.procs == s.procs[pid := s.procs[pid].(phase := b)];
  }

  lemma RescanClears(s: State, pid: nat)
    requires pid in s.procs && s.procs[pid].phase.TargetOwned? && ClaimPermitted(s.journal.dir, s.procs[pid].id)
    ensures Step(s, Rescan(pid, true)) == At(s, pid, Cleared, s.journal)
  {
    hide ClaimPermitted;
  }

  lemma OpenClaims(s: State, pid: nat, now: int)
    requires pid in s.procs && s.procs[pid].phase.Cleared?
    requires NameOf(ClaimEntry(s.procs[pid].id)) !in s.journal.dir
    ensures Step(s, OpenClaim(pid, true, now)) == At(s, pid, Creating(now), AddClaim(s.journal, s.procs[pid].id))
  {
    hide AddClaim;
  }

  lemma FillGoesLive(s: State, pid: nat)
    requires pid in s.procs && s.procs[pid].phase.Creating?
    ensures Step(s, FillClaim(pid, Durable))
         == At(s, pid, Live(s.procs[pid].phase.startedAt),
               FillEntry(s.journal, ClaimEntry(s.procs[pid].id), Started(s.procs[pid].phase.startedAt), Durable))
  {
    hide FillEntry;
  }

  lemma OpenFinalEnds(s: State, pid: nat, outcome: Outcome, now: int)
    requires pid in s.procs && s.procs[pid].phase.Live? && !outcome.InFlight?
    requires NameOf(FinalEntry(s.procs[pid].id, outcome)) !in s.journal.dir
    ensures Step(s, OpenFinal(pid, outcome, now))
         == At(s, pid, Ending(outcome, s.procs[pid].phase.startedAt, now), AddFinal(s.journal, s.procs[pid].id, outcome))
  {
    hide AddFinal;
  }

  lemma FillFinalEnds(s: State, pid: nat, outcome: Outcome, started: int, finished: int)
    requires pid in s.procs && s.procs[pid].phase == Ending(outcome, started, finished)
    ensures Step(s, FillFinal(pid, Durable))
         == At(s, pid, Ended, FillEntry(s.journal, FinalEntry(s.procs[pid].id, outcome), Finished(started, finished), Durable))
  {
    hide FillEntry;
  }

  lemma FinalNameStaysFree(j: Journal, id: Identity, outcome: Outcome, d: Dates)
    requires NameOf(FinalEntry(id, outcome)) !in j.dir
    ensures NameOf(FinalEntry(id, outcome)) !in FillEntry(AddClaim(j, id), ClaimEntry(id), d, Durable).dir
  {
  }

  lemma Writes(s: State, pid: nat, id: Identity, outcome: Outcome, started: int, finished: int)
    requires pid in s.procs && s.procs[pid].id == id && s.procs[pid].phase.TargetOwned?
    requires ClaimPermitted(s.journal.dir, id) && !outcome.InFlight?
    requires NameOf(ClaimEntry(id)) !in s.journal.dir && NameOf(FinalEntry(id, outcome)) !in s.journal.dir
    ensures Run(s, Writing(pid, outcome, started, finished))
         == At(s, pid, Ended, Written(s.journal, id, outcome, started, finished))
  {
    hide ClaimPermitted, Step, Run, NameOf, AddClaim, FillEntry, AddFinal;
    var j1 := AddClaim(s.journal, id);
    var j2 := FillEntry(j1, ClaimEntry(id), Started(started), Durable);
    var j3 := AddFinal(j2, id, outcome);
    var creating, live, ending := Creating(started), Live(started), Ending(outcome, started, finished);
    FinalNameStaysFree(s.journal, id, outcome, Started(started));
    RescanClears(s, pid);
    OpenClaims(At(s, pid, Cleared, s.journal), pid, started);
    AtAt(s, pid, Cleared, s.journal, creating, j1);
    FillGoesLive(At(s, pid, creating, j1), pid);
    AtAt(s, pid, creating, j1, live, j2);
    OpenFinalEnds(At(s, pid, live, j2), pid, outcome, finished);
    AtAt(s, pid, live, j2, ending, j3);
    FillFinalEnds(At(s, pid, ending, j3), pid, outcome, started, finished);
    AtAt(s, pid, ending, j3, Ended, Written(s.journal, id, outcome, started, finished));
    RunFive(s, Rescan(pid, true), OpenClaim(pid, true, started), FillClaim(pid, Durable), OpenFinal(pid, outcome, finished),
            FillFinal(pid, Durable));
  }

  lemma Releases(s: State, pid: nat)
    requires pid in s.procs && s.procs[pid].phase.Ended?
    requires OwnedBy(s.keyLocks, s.procs[pid].id.key, s.procs[pid].keyNonce)
    requires OwnedBy(s.targetLocks, s.procs[pid].id.target, s.procs[pid].targetNonce)
    ensures Run(s, Releasing(pid))
         == s.(procs := s.procs - {pid},
               keyLocks := s.keyLocks - {s.procs[pid].id.key},
               targetLocks := s.targetLocks - {s.procs[pid].id.target})
  {
    var r := Release(pid, true);
    RunCons(s, r, [r, r, r]);
    RunCons(Step(s, r), r, [r, r]);
    RunCons(Step(Step(s, r), r), r, [r]);
    RunOne(Step(Step(Step(s, r), r), r), r);
    assert Releasing(pid) == [r] + [r, r, r] && [r, r, r] == [r] + [r, r] && [r, r] == [r] + [r];
    var s1 := Step(s, r);
    var s2 := Step(s1, r);
    assert s2.keyLocks == s.keyLocks - {s.procs[pid].id.key} && s2.procs[pid].phase.KeyFree?;
    var s3 := Step(s2, r);
    var s4 := Step(s3, r);
    assert s4.targetLocks == s.targetLocks - {s.procs[pid].id.target};
    assert s4.procs == s.procs - {pid};
  }

  /** A permitted claim whose locks are free goes live, settles and gives both locks back when nobody interferes. */
  lemma UncontendedClaimCompletes(s: State, pid: nat, id: Identity, outcome: Outcome, started: int, finished: int)
    requires Inv(s) && pid !in s.procs && ClaimPermitted(s.journal.dir, id) && !outcome.InFlight?
    requires id.key !in s.keyLocks && id.target !in s.targetLocks
    ensures var t := Run(s, Acquisition(pid, id) + Writing(pid, outcome, started, finished) + Releasing(pid));
            && t.keyLocks == s.keyLocks && t.targetLocks == s.targetLocks && t.procs == s.procs
            && t.journal.log == s.journal.log + [id] && HasFinal(t.journal, id, outcome)
            && t.journal == Written(s.journal, id, outcome, started, finished)
  {
    hide Run, ClaimPermitted, JournalSound, LocksExclusive, ProcessesSound;
    Acquires(s, pid, id);
    var held := Holding(s, pid, id, TargetOwned);
    NoFileYet(s.journal, id, outcome);
    Writes(held, pid, id, outcome, started, finished);
    var ended := At(held, pid, Ended, Written(s.journal, id, outcome, started, finished));
    Releases(ended, pid);
    RunCat(s, Acquisition(pid, id), Writing(pid, outcome, started, finished));
    RunCat(s, Acquisition(pid, id) + Writing(pid, outcome, started, finished), Releasing(pid));
    assert ended.keyLocks - {id.key} == s.keyLocks;
    assert ended.targetLocks - {id.target} == s.targetLocks;
    assert ended.procs - {pid} == s.procs;
  }

  lemma NoFileYet(j: Journal, id: Identity, outcome: Outcome)
    requires JournalSound(j) && ClaimPermitted(j.dir, id)
    ensures NameOf(ClaimEntry(id)) !in j.dir && NameOf(FinalEntry(id, outcome)) !in j.dir
  {
    hide ClaimPermitted, KeysUnique, OneFilePerStep, EarlierSettled, Settled;
    PermittedClaimIsFresh(j, id);
    forall n | n in j.dir ensures n.key != id.key {
      assert Explained(j, n);
      assert j.owner[n.key] in j.log && j.owner[n.key].key == n.key;
    }
  }
}
