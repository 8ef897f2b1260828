/**
 A scan lists the directory once and then opens the files one by one, while other
 processes move on. Under both locks it still tells the truth when it ends.
 */
module LearningJournalRescan {
  import opened LearningJournal

  /** `n` is a file of the target or of the key that `id` claims. */
  predicate Near(n: FileName, id: Identity) { n.key == id.key || n.target == id.target }

  predicate SameFile(a: Directory, b: Directory, n: FileName) {
    (n in a <==> n in b) && (n in a ==> a[n] == b[n])
  }

  ghost predicate SameNear(a: Directory, b: Directory, id: Identity) {
    forall n :: Near(n, id) ==> SameFile(a, b, n)
  }

  /** The process `pid` holds both locks and has not scanned again yet. */
  predicate Waiting(s: State, pid: nat) {
    pid in s.procs && s.procs[pid].phase.TargetOwned?
  }

  ghost predicate LeftAlone(s: State, t: State, pid: nat)
    requires pid in s.procs
  {
    pid in t.procs && t.procs[pid] == s.procs[pid] && SameNear(s.journal.dir, t.journal.dir, s.procs[pid].id)
  }

  // ----- What the locks protect -----

  lemma OthersLeaveAlone(s: State, e: Event, pid: nat)
    requires LocksExclusive(s) && Waiting(s, pid) && e.pid != pid
    ensures LeftAlone(s, Step(s, e), pid)
  {
    if e.pid in s.procs && JournalEvent(e) {
      LocksExclude(s, e.pid, pid);
      hide LocksExclusive, ClaimPermitted;
      OtherJournalStep(s, e, pid);
    } else {
      hide ClaimPermitted, LocksExclusive;
    }
  }

  lemma OtherJournalStep(s: State, e: Event, pid: nat)
    requires e.pid in s.procs && JournalEvent(e) && Waiting(s, pid) && e.pid != pid
    requires HoldsKey(s.procs[e.pid].phase) ==> s.procs[e.pid].id.key != s.procs[pid].id.key
    requires HoldsTarget(s.procs[e.pid].phase) ==> s.procs[e.pid].id.target != s.procs[pid].id.target
    ensures LeftAlone(s, JournalStep(s, e), pid)
  {
    hide ClaimPermitted;
  }

  predicate NotBy(events: seq<Event>, pid: nat) {
    forall i :: 0 <= i < |events| ==> events[i].pid != pid
  }

  lemma {:induction false} OthersRunLeavesAlone(s: State, events: seq<Event>, pid: nat)
    requires Inv(s) && Waiting(s, pid) && NotBy(events, pid)
    ensures LeftAlone(s, Run(s, events), pid)
    decreases |events|
  {
    hide Step, JournalSound, ProcessesSound, LocksExclusive;
    if events != [] {
      var s1 := Step(s, events[0]);
      OthersLeaveAlone(s, events[0], pid);
      StepKeepsInv(s, events[0]);
      OthersRunLeavesAlone(s1, events[1..], pid);
    }
  }

  // ----- What a slow scan sees -----

  /** File `n` was read at some moment of the run. */
  ghost predicate ReadDuring(s: State, events: seq<Event>, n: FileName, c: Content) {
    exists i :: 0 <= i <= |events| && ReadAt(Run(s, events[..i]).journal.dir, n, c)
  }

  predicate ReadAt(dir: Directory, n: FileName, c: Content) { n in dir && dir[n] == c }

  /** The names as listed in `s`, each file as it was at some later moment of the run. */
  ghost predicate SlowScan(s: State, events: seq<Event>, view: Directory) {
    && view.Keys == s.journal.dir.Keys
    && (forall n <- view :: ReadDuring(s, events, n, view[n]))
  }

  lemma ViewAgrees(s: State, events: seq<Event>, pid: nat, view: Directory)
    requires Inv(s) && Waiting(s, pid) && NotBy(events, pid) && SlowScan(s, events, view)
    ensures SameNear(view, Run(s, events).journal.dir, s.procs[pid].id)
  {
    hide Inv, Run;
    var id := s.procs[pid].id;
    var t := Run(s, events);
    OthersRunLeavesAlone(s, events, pid);
    forall n | Near(n, id) ensures SameFile(view, t.journal.dir, n) {
      assert SameFile(s.journal.dir, t.journal.dir, n);
      if n in view {
        assert ReadDuring(s, events, n, view[n]);
        var i :| 0 <= i <= |events| && ReadAt(Run(s, events[..i]).journal.dir, n, view[n]);
        OthersRunLeavesAlone(s, events[..i], pid);
        assert SameFile(s.journal.dir, Run(s, events[..i]).journal.dir, n);
      }
    }
  }

  lemma ViewedEntry(j: Journal, view: Directory, id: Identity, h: Identity, n: FileName)
    requires FilesExplained(j) && SameNear(view, j.dir, id) && Readable(view)
    requires h.key in j.owner && j.owner[h.key] == h && n in view && n.key == h.key && Near(n, id)
    ensures n in j.dir && NameValid(n) && j.dir[n] == view[n]
    ensures view[n].Whole? && view[n].entry == Entry(h, n.sequence, n.state) && view[n].entry in Records(view)
  {
    assert SameFile(view, j.dir, n);
    assert FileReadable(view, n) && Explained(j, n);
  }

  lemma LatestInView(j: Journal, view: Directory, id: Identity, h: Identity) returns (e: Entry)
    requires JournalSound(j) && SameNear(view, j.dir, id) && Readable(view) && h in j.log
    requires h.key == id.key || h.target == id.target
    ensures e in Latest(Records(view)) && e.id == h
    ensures !Unresolved(e) ==> Settled(j, h)
  {
    hide OwnersLogged, KeysUnique, OneFilePerStep, EarlierSettled, FilesExplained, Readable, Records, Settled, SameNear;
    OwnerOf(j, h);
    ClaimFileExists(j, h);
    e := ClaimEntry(h);
    NearIsViewed(j, view, id, NameOf(e));
    ViewedEntry(j, view, id, h, NameOf(e));
    if Superseded(Records(view), e) {
      var f :| f in Records(view) && SameHistory(f, e) && f.sequence > e.sequence;
      var n := FileOf(view, f);
      ViewedEntry(j, view, id, h, n);
      FinalInView(j, view, h, n);
      FinalNotSuperseded(Journal(view, [], map[]), f);
      e := f;
    }
  }

  lemma NearIsViewed(j: Journal, view: Directory, id: Identity, n: FileName)
    requires SameNear(view, j.dir, id) && Near(n, id) && n in j.dir
    ensures n in view
  {
    assert SameFile(view, j.dir, n);
  }

  lemma FileOf(view: Directory, f: Entry) returns (n: FileName)
    requires Readable(view) && f in Records(view)
    ensures n in view && view[n].Whole? && view[n].entry == f && n == NameOf(f)
  {
    n :| n in view && view[n].entry == f;
    assert FileReadable(view, n);
  }

  lemma FinalInView(j: Journal, view: Directory, h: Identity, n: FileName)
    requires n in view && n in j.dir && j.dir[n] == view[n] && NameValid(n) && n.sequence > 0
    requires view[n].Whole? && view[n].entry == Entry(h, n.sequence, n.state) && n == NameOf(view[n].entry)
    ensures !Unresolved(view[n].entry) ==> Settled(j, h)
  {
  }

  /** Clearance by a slow scan is as good as by one that takes no time: the claim may go ahead. */
  lemma SlowRescanIsSound(s: State, events: seq<Event>, pid: nat, view: Directory)
    requires Inv(s) && Waiting(s, pid) && NotBy(events, pid) && SlowScan(s, events, view)
    requires ClaimPermitted(view, s.procs[pid].id)
    ensures Waiting(Run(s, events), pid)
    ensures Inv(Advance(Run(s, events), pid, Cleared))
  {
    hide Run, ClaimPermitted, SlowScan, NotBy;
    var t, id := Run(s, events), s.procs[pid].id;
    RunKeepsInv(s, events);
    OthersRunLeavesAlone(s, events, pid);
    ViewAgrees(s, events, pid, view);
    ViewIsFresh(t.journal, view, id);
    hide SameNear, JournalSound;
    ClearedKeepsInv(t, pid);
  }

  lemma ViewIsFresh(j: Journal, view: Directory, id: Identity)
    requires JournalSound(j) && SameNear(view, j.dir, id) && ClaimPermitted(view, id)
    ensures ProcessSound(j, Process(id, Cleared, 0, 0))
  {
    hide SameNear, JournalSound, Settled, HistoriesSound, Readable, Records, Latest;
    forall h | h in j.log && (h.key == id.key || h.target == id.target)
      ensures h.key != id.key && Settled(j, h)
    {
      var e := LatestInView(j, view, id, h);
    }
    OwnersAreLogged(j);
  }

  lemma OwnersAreLogged(j: Journal)
    requires JournalSound(j)
    ensures forall k :: k in j.owner ==> j.owner[k].key == k && j.owner[k] in j.log
  {}

  lemma ClearedKeepsInv(t: State, pid: nat)
    requires Inv(t) && Waiting(t, pid) && ProcessSound(t.journal, Process(t.procs[pid].id, Cleared, 0, 0))
    ensures Inv(Advance(t, pid, Cleared))
  {
    hide JournalSound, Settled;
    var u := Advance(t, pid, Cleared);
    forall q | q in u.procs ensures LocksHeld(u, q) { assert LocksHeld(t, q); }
    forall q | q in u.procs ensures ProcessSound(u.journal, u.procs[q]) { assert ProcessSound(t.journal, t.procs[q]); }
  }
}
