/** Uninterrupted calls as runs of the machine, and one such run that ends in a refused verification. */
module ChangeSetDrift {
  import opened Prelude
  import opened ChangeSetStore
  import opened ChangeSetCalls
  import opened ChangeSetInvariant
  import opened ChangeSetSafety
  import opened ChangeSetOutcomes
  import opened ChangeSetRuns
  import opened ChangeSetRoundTrip

  // ----- A call that nobody interrupts -----

  function Steps(pid: nat, n: nat): seq<Event> {
    if n == 0 then [] else Steps(pid, n - 1) + [Advance(pid)]
  }

  function Uninterrupted(pid: nat, c: Call, now: nat, n: nat): seq<Event> {
    [Enter(pid, c, now)] + Steps(pid, n) + [Leave(pid)]
  }

  /** `s` with the world of process `pid` replaced, and `pending` still to do. */
  function With(s: State, pid: nat, w: World, pending: seq<Effect>): State {
    s.(disk := w.disk, dispatched := w.dispatched, procs := s.procs[pid := Process(w.vault, pending)])
  }

  lemma RunSnoc(s: State, events: seq<Event>, e: Event)
    ensures Run(s, events + [e]) == Step(Run(s, events), e)
  {
    assert (events + [e])[..|events|] == events;
  }

  lemma {:induction false} RunSplit(s: State, a: seq<Event>, b: seq<Event>)
    ensures Run(s, a + b) == Run(Run(s, a), b)
    decreases |b|
  {
    hide Step, Run;
    if b == [] {
      assert a + b == a;
      RunNothing(Run(s, a));
    } else {
      var n := |b| - 1;
      RunSplit(s, a, b[..n]);
      RunSnoc(s, a + b[..n], b[n]);
      RunSnoc(Run(s, a), b[..n], b[n]);
      assert a + b == (a + b[..n]) + [b[n]] && b == b[..n] + [b[n]];
    }
  }

  lemma RunNothing(s: State)
    ensures Run(s, []) == s
  {
  }

  lemma {:induction false} StepsDo(s: State, pid: nat, n: nat)
    requires pid in s.procs && s.lock == Some(pid) && n <= |s.procs[pid].pending|
    ensures var es := s.procs[pid].pending;
            Run(s, Steps(pid, n)) == With(s, pid, DoAll(View(s, pid), es[..n]), es[n..])
  {
    hide Step, Do;
    var es := s.procs[pid].pending;
    if n == 0 {
      assert es[..0] == [] && es[0..] == es;
      DoNothing(View(s, pid));
      assert With(s, pid, View(s, pid), es) == s;
    } else {
      StepsDo(s, pid, n - 1);
      RunSnoc(s, Steps(pid, n - 1), Advance(pid));
      DoSnoc(View(s, pid), es[..n - 1], es[n - 1]);
      assert es[..n - 1] + [es[n - 1]] == es[..n];
      OneAdvance(s, pid, DoAll(View(s, pid), es[..n - 1]), es[n - 1..]);
    }
  }

  lemma OneAdvance(s: State, pid: nat, w: World, es: seq<Effect>)
    requires s.lock == Some(pid) && es != []
    ensures Step(With(s, pid, w, es), Advance(pid)) == With(s, pid, Do(w, es[0]), es[1..])
  {
    hide Do;
    var t := With(s, pid, w, es);
    assert View(t, pid) == w;
    assert t.procs[pid := Process(Do(w, es[0]).vault, es[1..])] == s.procs[pid := Process(Do(w, es[0]).vault, es[1..])];
  }

  /** An uninterrupted call performs its steps in order, and gives the lock back. */
  lemma CallRuns(s: State, pid: nat, c: Call, now: nat)
    requires Enterable(s, pid, c)
    ensures var es := Perform(View(s, pid), c, now).effects;
            && Run(s, Uninterrupted(pid, c, now, |es|))
            == With(s, pid, DoAll(View(s, pid), es), []).(used := if c.PlanChange? then s.used + {c.newId} else s.used)
  {
    hide Perform, DoAll, Do, Run;
    var w := View(s, pid);
    var es := Perform(w, c, now).effects;
    var n := |es|;
    var entered := EnterStep(s, pid, c, now);
    RunNothing(s);
    RunSnoc(s, [], Enter(pid, c, now));
    assert [] + [Enter(pid, c, now)] == [Enter(pid, c, now)];
    RunSplit(s, [Enter(pid, c, now)], Steps(pid, n));
    RunSnoc(s, [Enter(pid, c, now)] + Steps(pid, n), Leave(pid));
    StepsDo(entered, pid, n);
    assert es[..n] == es && es[n..] == [];
    LeaveAfter(s, entered, pid, DoAll(w, es));
  }

  lemma LeaveAfter(s: State, entered: State, pid: nat, w: World)
    requires s.lock.None? && entered.lock == Some(pid) && pid in s.procs && pid in entered.procs
    requires entered == s.(lock := Some(pid), procs := s.procs[pid := entered.procs[pid]], used := entered.used)
    ensures Step(With(entered, pid, w, []), Leave(pid)) == With(s, pid, w, []).(used := entered.used)
  {
    assert entered.procs[pid := Process(w.vault, [])] == s.procs[pid := Process(w.vault, [])];
  }

  // ----- Drift after an apply -----

  const EMPTY := World(EMPTY_DISK, map[], [])

  function Asked(): PlanRequest { PlanRequest(NoKey, 0, 0, 0, 0) }

  function Offered(): PlanAnswers { PlanAnswers(Some(Seen(1, None)), true, 2, 0) }

  function Took(): ApplyAnswers { ApplyAnswers(Some(Seen(1, None)), Returned(2), None, None) }

  lemma Started()
    ensures Run(INIT, [Start(0)]) == INIT.(procs := map[0 := Process(map[], [])])
  {
    RunSnoc(INIT, [], Start(0));
    RunNothing(INIT);
    assert [] + [Start(0)] == [Start(0)];
  }

  lemma Drifts(w: World, r0: Record)
    requires WorldInv(w) && r0 == PlannedRecord(Asked(), Offered(), 0, 0) && w == PlannedWorld(EMPTY, r0)
    ensures ApplyCall(w, 0, Key(0), false, Took(), 0).result.Ok?
    ensures var t := DoAll(w, ApplyCall(w, 0, Key(0), false, Took(), 0).effects);
            && WorldInv(t) && Loadable(t.disk, 0) && Last(t.disk, 0).state.Applied?
            && Last(t.disk, 0) == AppliedRecord(r0, 2, None, 0)
            && |t.disk.histories[0]| == 2
  {
    hide WorldInv, DoAll, ApplyCall;
    AppliedNext(EMPTY, w, r0, 0, Took(), 0);
  }

  /** An applied ChangeSet whose target someone else has edited: verify is refused, and leaves no record. */
  lemma DriftIsRefused() returns (events: seq<Event>)
    ensures var s := Run(INIT, events);
            && 0 in s.procs && Loadable(s.disk, 0) && Last(s.disk, 0).state.Applied?
            && VerifyCall(View(s, 0), 0, Some(Seen(3, None)), 0) == Outcome([], Err(AppendRefused))
  {
    hide WorldInv, DoAll, ApplyCall, PlanCall, VerifyCall, Run, Inv, PlannedWorld, PlannedRecord, NewName;
    Started();
    var s0 := Run(INIT, [Start(0)]);
    ReachableInv([Start(0)]);
    ViewInv(s0, 0);
    assert View(s0, 0) == EMPTY;
    var plan := PlanChange(Asked(), Offered(), 0);
    var r0 := PlannedRecord(Asked(), Offered(), 0, 0);
    PlanDo(EMPTY, Asked(), Offered(), 0, 0);
    NewOnEmpty();
    PlanCallSafe(EMPTY, Asked(), Offered(), 0, 0);
    SafeListKeeps(EMPTY, PlanCall(EMPTY, Asked(), Offered(), 0, 0).effects);
    CallRuns(s0, 0, plan, 0);
    var planned := Uninterrupted(0, plan, 0, |PlanCall(EMPTY, Asked(), Offered(), 0, 0).effects|);
    RunSplit(INIT, [Start(0)], planned);
    var s1 := Run(s0, planned);
    var w1 := PlannedWorld(EMPTY, r0);
    assert View(s1, 0) == w1;
    var apply := ApplyChange(0, Key(0), false, Took());
    CallRuns(s1, 0, apply, 0);
    var applied := Uninterrupted(0, apply, 0, |ApplyCall(w1, 0, Key(0), false, Took(), 0).effects|);
    events := [Start(0)] + planned + applied;
    RunSplit(INIT, [Start(0)] + planned, applied);
    Drifts(w1, r0);
    var w2 := DoAll(w1, ApplyCall(w1, 0, Key(0), false, Took(), 0).effects);
    assert View(Run(s1, applied), 0) == w2;
    RefusedThere(w2, r0);
  }

  lemma NewOnEmpty()
    ensures NewName(EMPTY, 0)
  {
  }

  lemma RefusedThere(w: World, r0: Record)
    requires WorldInv(w) && Loadable(w.disk, 0) && |w.disk.histories[0]| == 2
    requires r0 == PlannedRecord(Asked(), Offered(), 0, 0) && Last(w.disk, 0) == AppliedRecord(r0, 2, None, 0)
    ensures VerifyCall(w, 0, Some(Seen(3, None)), 0) == Outcome([], Err(AppendRefused))
  {
    VerifyRefusedExactly(w, 0, Some(Seen(3, None)), 0);
    hide WorldInv;
  }
}
