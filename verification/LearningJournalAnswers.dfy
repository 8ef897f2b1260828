/** What the journal answers when a claim is asked for, and for how long it gives the same answer. */
module LearningJournalAnswers {
  import opened LearningJournal
  import opened LearningJournalSafety

  datatype Reply = ScanRejected | ManyHistories | Conflict | Done(state: Outcome) | Quarantined | Proceed

  function OfKey(latest: set<Entry>, key: nat): set<Entry> { set e <- latest | e.id.key == key }

  function Verdict(e: Entry, id: Identity): Reply {
    if e.id != id then Conflict
    else if e.state.Completed? || e.state.Failed? then Done(e.state)
    else Quarantined
  }

  /** The answer of the first scan: what is known of the key comes before what is known of the target. */
  ghost function ClaimReply(dir: Directory, id: Identity): Reply {
    if !ScanSucceeds(dir) then ScanRejected
    else
      var same := OfKey(Latest(Records(dir)), id.key);
      if |same| > 1 then ManyHistories
      else if same != {} then var e :| e in same; Verdict(e, id)
      else if TargetQuarantined(Latest(Records(dir)), id.target) then Quarantined
      else Proceed
  }

  /** A claim may proceed exactly when the protocol permits it. */
  lemma ProceedsExactly(dir: Directory, id: Identity)
    ensures ClaimReply(dir, id).Proceed? <==> ClaimPermitted(dir, id)
  {
    hide Latest, HistoriesSound, Readable, Records;
    if ScanSucceeds(dir) {
      var latest := Latest(Records(dir));
      var same := OfKey(latest, id.key);
      assert KeySeen(latest, id.key) <==> same != {} by {
        if KeySeen(latest, id.key) {
          var e :| e in latest && e.id.key == id.key;
          assert e in same;
        }
      }
      if same == {} { assert |same| == 0; }
    }
  }

  // ----- A known key -----

  lemma Recorded(j: Journal, e: Entry)
    requires JournalSound(j) && Readable(j.dir) && e in Records(j.dir)
    ensures e.id.key in j.owner && e.id == j.owner[e.id.key] && NameOf(e) in j.dir && j.dir[NameOf(e)].Whole?
    ensures j.dir[NameOf(e)].entry == e && EntryValid(e)
  {
    hide KeysUnique, EarlierSettled, OneFilePerStep;
    var f :| f in j.dir && j.dir[f].entry == e;
    assert FileReadable(j.dir, f);
    assert Explained(j, f);
  }

  /** The latest entries of one key are the one that stands for its history. */
  lemma OneLatest(j: Journal, a: Entry, b: Entry)
    requires JournalSound(j) && ScanSucceeds(j.dir)
    requires a in Latest(Records(j.dir)) && b in Latest(Records(j.dir)) && a.id.key == b.id.key
    ensures a == b
  {
    hide JournalSound;
    Recorded(j, a);
    Recorded(j, b);
    var records := Records(j.dir);
    assert SameHistory(a, b) && SameHistory(b, a);
    assert !Superseded(records, a) && !Superseded(records, b);
    hide Records, Readable;
    assert a.sequence == b.sequence;
  }

  lemma SingletonChoice(s: set<Entry>, e: Entry)
    requires e in s && forall x <- s :: x == e
    ensures s == {e} && |s| == 1
  {
  }

  /** A settled key stands at its final entry. */
  lemma SettledLatest(j: Journal, id: Identity, o: Outcome, e: Entry)
    requires JournalSound(j) && ScanSucceeds(j.dir) && HasFinal(j, id, o) && !o.InFlight?
    requires e in Latest(Records(j.dir)) && e.id == id
    ensures e == FinalEntry(id, o)
  {
    hide JournalSound, HistoriesSound, Readable, Records, Latest, HasFinal;
    FinalOnFile(j, id, o);
    FinalNotSuperseded(j, FinalEntry(id, o));
    OneLatest(j, e, FinalEntry(id, o));
  }

  lemma FinalOnFile(j: Journal, id: Identity, o: Outcome)
    requires Readable(j.dir) && HasFinal(j, id, o)
    ensures FinalEntry(id, o) in Records(j.dir)
  {
    hide Readable, NameOf;
    assert j.dir[NameOf(FinalEntry(id, o))].entry == FinalEntry(id, o);
  }

  /**
   In a sound journal that can be scanned, a key that was ever claimed answers for its one history: a conflict to any
   other request, its outcome to the same one, and quarantine while it has none that settles it. Two histories are never found.
   */
  lemma KnownKeysAnswer(j: Journal, id: Identity)
    requires JournalSound(j) && ScanSucceeds(j.dir) && id.key in j.owner
    ensures ClaimReply(j.dir, id)
         == (if j.owner[id.key] != id then Conflict
             else if HasFinal(j, id, Completed) then Done(Completed)
             else if HasFinal(j, id, Failed) then Done(Failed)
             else Quarantined)
  {
    hide JournalSound, Records, Readable, HistoriesSound, HasFinal, Latest, FilesExplained;
    var h := j.owner[id.key];
    OwnersKnown(j, id.key);
    var e := LatestOfHistory(j, h);
    var same := OfKey(Latest(Records(j.dir)), id.key);
    forall x | x in same ensures x == e { OneLatest(j, x, e); }
    SingletonChoice(same, e);
    StandsForOutcome(j, h, e);
  }

  lemma OwnersKnown(j: Journal, key: nat)
    requires JournalSound(j) && key in j.owner
    ensures j.owner[key].key == key && j.owner[key] in j.log
  {
  }

  lemma StandsForOutcome(j: Journal, h: Identity, e: Entry)
    requires JournalSound(j) && ScanSucceeds(j.dir) && e in Latest(Records(j.dir)) && e.id == h
    ensures e.state.Completed? <==> HasFinal(j, h, Completed)
    ensures !HasFinal(j, h, Completed) ==> (e.state.Failed? <==> HasFinal(j, h, Failed))
  {
    hide JournalSound;
    Recorded(j, e);
    if HasFinal(j, h, Completed) { SettledLatest(j, h, Completed, e); }
    if HasFinal(j, h, Failed) { SettledLatest(j, h, Failed, e); }
    if !e.state.InFlight? { assert NameOf(e) == NameOf(FinalEntry(h, e.state)) && e == FinalEntry(h, e.state); }
  }

  // ----- For good -----

  lemma FinalStays(s: State, e: Event, h: Identity, o: Outcome)
    requires Inv(s) && HasFinal(s.journal, h, o)
    ensures HasFinal(Step(s, e).journal, h, o)
  {
    hide JournalSound, LocksExclusive, ClaimPermitted, NameOf;
    if e.pid in s.procs && JournalEvent(e) {
      assert ProcessSound(s.journal, s.procs[e.pid]);
      hide ProcessesSound, ProcessSound, JournalStep;
      JournalStepKeepsJournal(s, e);
    } else {
      hide ProcessesSound, ProcessSound;
      QuietStep(s, e);
    }
  }

  lemma QuietStep(s: State, e: Event)
    requires !(e.pid in s.procs && JournalEvent(e))
    ensures Step(s, e).journal == s.journal
  {
    hide ClaimPermitted;
  }

  lemma {:induction false} FinalIsForGood(s: State, events: seq<Event>, h: Identity, o: Outcome)
    requires Inv(s) && HasFinal(s.journal, h, o)
    ensures Inv(Run(s, events)) && HasFinal(Run(s, events).journal, h, o)
    decreases |events|
  {
    hide Inv, Step, HasFinal;
    if events != [] {
      FinalStays(s, events[0], h, o);
      StepKeepsInv(s, events[0]);
      FinalIsForGood(Step(s, events[0]), events[1..], h, o);
    }
  }

  /** Over every run: a learning that was COMPLETED or FAILED answers so for good, as long as the journal can be scanned at all. */
  lemma OutcomeAnswersForGood(first: seq<Event>, more: seq<Event>, h: Identity, o: Outcome)
    requires HasFinal(Run(Initial, first).journal, h, o) && (o.Completed? || o.Failed?)
    ensures var dir := Run(Run(Initial, first), more).journal.dir;
            ScanSucceeds(dir) ==> ClaimReply(dir, h) == Done(o)
  {
    hide Run, Inv, HasFinal, ScanSucceeds;
    ReachableInv(first);
    FinalIsForGood(Run(Initial, first), more, h, o);
    var t := Run(Run(Initial, first), more);
    SoundOf(t);
    if ScanSucceeds(t.journal.dir) {
      FinalIsOwned(t.journal, h, o);
      KnownKeysAnswer(t.journal, h);
      OneOutcome(t.journal, h, o);
    }
  }

  lemma SoundOf(s: State)
    requires Inv(s)
    ensures JournalSound(s.journal)
  {
  }

  lemma FinalIsOwned(j: Journal, h: Identity, o: Outcome)
    requires JournalSound(j) && HasFinal(j, h, o)
    ensures h.key in j.owner && j.owner[h.key] == h
  {
    hide KeysUnique, EarlierSettled, OneFilePerStep, OwnersLogged;
    assert Explained(j, NameOf(FinalEntry(h, o)));
  }

  lemma OneOutcome(j: Journal, h: Identity, o: Outcome)
    requires JournalSound(j) && HasFinal(j, h, o)
    ensures forall other :: HasFinal(j, h, other) ==> other == o
  {
    hide KeysUnique, EarlierSettled, FilesExplained, OwnersLogged;
    forall other | HasFinal(j, h, other) ensures other == o {
      assert NameOf(FinalEntry(h, other)) == NameOf(FinalEntry(h, o));
    }
  }

  // ----- An attempt that comes to nothing -----

  /** `s` without process `pid` and without the key lock it made. */
  function KeyGivenBack(s: State, pid: nat): State
    requires pid in s.procs
  {
    s.(procs := s.procs - {pid}, keyLocks := s.keyLocks - {s.procs[pid].id.key})
  }

  /** `s` without process `pid` and without both locks it made. */
  function BothGivenBack(s: State, pid: nat): State
    requires pid in s.procs
  {
    KeyGivenBack(s, pid).(targetLocks := s.targetLocks - {s.procs[pid].id.target})
  }

  lemma KeyIsGivenBack(s: State, pid: nat)
    requires pid in s.procs && s.procs[pid].phase.UndoKey? && OwnedBy(s.keyLocks, s.procs[pid].id.key, s.procs[pid].keyNonce)
    ensures Run(s, [Release(pid, true), Release(pid, true)]) == KeyGivenBack(s, pid)
  {
    var r := Release(pid, true);
    RunCons(s, r, [r]);
    RunOne(Step(s, r), r);
    assert [r, r] == [r] + [r];
    var s1 := Step(s, r);
    assert s1.procs[pid].phase.UndoKeyUnlinked?;
    assert Step(s1, r).keyLocks == s.keyLocks - {s.procs[pid].id.key};
    assert Step(s1, r).procs == s.procs - {pid};
  }

  lemma TargetIsGivenBack(s: State, pid: nat)
    requires pid in s.procs && s.procs[pid].phase.UndoTarget?
    requires OwnedBy(s.targetLocks, s.procs[pid].id.target, s.procs[pid].targetNonce)
    ensures Run(s, [Release(pid, true), Release(pid, true)])
         == At(s, pid, UndoKey, s.journal).(targetLocks := s.targetLocks - {s.procs[pid].id.target})
  {
    var r := Release(pid, true);
    RunCons(s, r, [r]);
    RunOne(Step(s, r), r);
    assert [r, r] == [r] + [r];
    var s1 := Step(s, r);
    assert s1.procs[pid].phase.UndoTargetUnlinked?;
    assert Step(s1, r).targetLocks == s.targetLocks - {s.procs[pid].id.target};
  }

  /** A target that is locked by another attempt, or whose lock cannot be marked, costs the key lock, which is given back. */
  lemma RefusedTargetGivesKeyBack(s: State, pid: nat, marked: bool)
    requires pid in s.procs && OwnedBy(s.keyLocks, s.procs[pid].id.key, s.procs[pid].keyNonce)
    requires (s.procs[pid].phase.KeyOwned? && s.procs[pid].id.target in s.targetLocks) || (s.procs[pid].phase.TargetDir? && !marked)
    ensures var e := if s.procs[pid].phase.KeyOwned? then MakeTargetDir(pid, true) else OwnTarget(pid, marked);
            Run(s, [e] + [Release(pid, true), Release(pid, true)]) == KeyGivenBack(s, pid)
  {
    var e := if s.procs[pid].phase.KeyOwned? then MakeTargetDir(pid, true) else OwnTarget(pid, marked);
    RunCons(s, e, [Release(pid, true), Release(pid, true)]);
    var s1 := Step(s, e);
    assert s1 == At(s, pid, UndoKey, s.journal);
    hide Step, Run;
    KeyIsGivenBack(s1, pid);
    assert s1.procs - {pid} == s.procs - {pid};
  }

  /** A rescan that refuses the claim gives both locks back and leaves the journal alone. */
  lemma RefusedRescanGivesBothBack(s: State, pid: nat)
    requires pid in s.procs && s.procs[pid].phase.TargetOwned? && !ClaimPermitted(s.journal.dir, s.procs[pid].id)
    requires OwnedBy(s.keyLocks, s.procs[pid].id.key, s.procs[pid].keyNonce)
    requires OwnedBy(s.targetLocks, s.procs[pid].id.target, s.procs[pid].targetNonce)
    ensures Run(s, [Rescan(pid, true)] + ([Release(pid, true), Release(pid, true)] + [Release(pid, true), Release(pid, true)]))
         == BothGivenBack(s, pid)
  {
    hide ClaimPermitted;
    var rr := [Release(pid, true), Release(pid, true)];
    RunCons(s, Rescan(pid, true), rr + rr);
    var s1 := Step(s, Rescan(pid, true));
    assert s1 == At(s, pid, UndoTarget, s.journal);
    hide Step, Run;
    RunCat(s1, rr, rr);
    TargetIsGivenBack(s1, pid);
    var s2 := At(s1, pid, UndoKey, s.journal).(targetLocks := s.targetLocks - {s.procs[pid].id.target});
    KeyIsGivenBack(s2, pid);
    assert s2.procs - {pid} == s.procs - {pid};
  }
}
