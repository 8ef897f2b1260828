/** The four phases of a learning run over one exact target that anybody may edit and no write of which can be trusted. */
module LearningSession {
  import opened Prelude
  import opened LearningContent

  datatype Landing = Obeyed | NotLanded | Garbled(content: Content)

  /**
   What one call to the outside meets: an edit by somebody else first, then whether
   the call succeeds, where a write lands, and whether a failed journal write was
   recorded all the same.
   */
  datatype Answer = Answer(ok: bool, drift: Option<Content>, landing: Landing, recorded: bool)

  const WILLING := Answer(true, None, Obeyed, true)

  /** The reads and writes of a run that reached the target, in order. */
  datatype Contact = Saw(content: Content) | Wrote(content: Content)

  function WritesIn(log: seq<Contact>): nat {
    if log == [] then 0 else WritesIn(log[..|log| - 1]) + (if log[|log| - 1].Wrote? then 1 else 0)
  }

  predicate LastSaw(log: seq<Contact>, c: Content) {
    log != [] && log[|log| - 1] == Saw(c)
  }

  lemma WritesSnoc(log: seq<Contact>, c: Contact)
    ensures WritesIn(log + [c]) == WritesIn(log) + (if c.Wrote? then 1 else 0)
  {
    assert (log + [c])[..|log|] == log;
  }

  /** Each write replaces the one state that the read just before it showed: the baseline by the test state, or back. */
  predicate Guarded(log: seq<Contact>, base: Content, test: Option<Content>) {
    forall k :: 0 <= k < |log| && log[k].Wrote? ==>
                  && k > 0 && test.Some?
                  && ((log[k - 1] == Saw(base) && log[k].content == test.value)
                      || (log[k - 1] == Saw(test.value) && log[k].content == base))
  }

  lemma GuardedSnoc(log: seq<Contact>, c: Contact, base: Content, test: Option<Content>)
    requires Guarded(log, base, test)
    requires c.Wrote? ==>
               && log != [] && test.Some?
               && ((log[|log| - 1] == Saw(base) && c.content == test.value)
                   || (log[|log| - 1] == Saw(test.value) && c.content == base))
    ensures Guarded(log + [c], base, test)
  {
  }

  lemma {:induction false} NoWritesGuarded(log: seq<Contact>, base: Content, test: Option<Content>)
    requires WritesIn(log) == 0
    ensures Guarded(log, base, test)
    decreases |log|
  {
    if log != [] {
      NoWritesGuarded(log[..|log| - 1], base, test);
    }
  }

  /** The baseline was read, or put back over the test state just read and read then. */
  predicate FoundAgain(start: seq<Contact>, now: seq<Contact>, base: Content, test: Option<Content>) {
    || now == start + [Saw(base)]
    || (test.Some? && now == start + [Saw(test.value), Wrote(base), Saw(base)])
  }

  /** The exact target, seen through its adapter. */
  class Remote {
    const op: Operation
    const answers: nat -> Answer
    var asked: nat
    var content: Content
    ghost var log: seq<Contact>

    constructor (op: Operation, answers: nat -> Answer, content: Content)
      ensures this.op == op && this.answers == answers && this.content == content && asked == 0 && log == []
    {
      this.op, this.answers, this.content := op, answers, content;
      asked, log := 0, [];
    }

    /** Nobody else edits the target during the run. */
    ghost predicate Isolated() {
      forall n :: answers(n).drift.None?
    }

    /** Every write to the journal takes effect. */
    ghost predicate Recorded() {
      forall n :: answers(n).recorded
    }

    ghost predicate Obedient() {
      forall n :: answers(n) == WILLING
    }

    method Ask() returns (a: Answer)
      modifies this`asked
      ensures a == answers(old(asked)) && asked == old(asked) + 1
    {
      a := answers(asked);
      asked := asked + 1;
    }

    /** A lineage check, an evidence check or a registry lookup: it only succeeds or fails. */
    method Check() returns (ok: bool)
      modifies this`asked
      ensures ok == answers(old(asked)).ok && asked == old(asked) + 1
      ensures Obedient() ==> ok
    {
      var a := Ask();
      ok := a.ok;
    }

    method Read() returns (r: Option<Content>)
      modifies this
      ensures r.Some? ==> Fits(op, r.value) && content == r.value && log == old(log) + [Saw(r.value)]
      ensures r.None? ==> log == old(log) && (!answers(old(asked)).ok || !Fits(op, content))
      ensures Isolated() ==> content == old(content)
      ensures Obedient() && Fits(op, old(content)) ==> r.Some?
    {
      var a := Ask();
      if a.drift.Some? { content := a.drift.value; }
      if !a.ok || !Fits(op, content) { return None; }
      log := log + [Saw(content)];
      return Some(content);
    }

    /** The fixed write of one snapshot; only an acknowledgement is reported back. */
    method Write(snapshot: Content, field: string) returns (acknowledged: bool)
      requires Fits(op, snapshot)
      modifies this
      ensures log == old(log) + [Wrote(snapshot)] || (log == old(log) && !acknowledged)
      ensures log == old(log) ==> op.Standard? && (field !in snapshot.record || !snapshot.record[field].Words?)
      ensures Obedient() && Fits(op, old(content)) && (op.Standard? ==> field in snapshot.record && snapshot.record[field].Words?) ==>
                acknowledged && content == Written(op, old(content), snapshot, field)
      ensures log == old(log) && Isolated() ==> content == old(content)
    {
      if op.Standard? && (field !in snapshot.record || !snapshot.record[field].Words?) { return false; }
      var a := Ask();
      if a.drift.Some? { content := a.drift.value; }
      log := log + [Wrote(snapshot)];
      if a.landing.Garbled? {
        content := a.landing.content;
      } else if a.landing.Obeyed? && Fits(op, content) {
        content := Written(op, content, snapshot, field);
      }
      return a.ok;
    }
  }

  datatype Fault =
    | PhaseReused | BeforeRequired | FieldRefused | ReadRejected | StaleBaseline
    | IntendedRefused | WriteUnacknowledged | ReadbackMismatch | DeltaRejected
    | ReplayUnavailable | ReplayBaselineMismatch | ReplayMismatch
    | RestoreGuard | RestoreMismatch | NoMutation | CheckFailed

  datatype Snapshot = Snapshot(content: Content, field: string, marker: Marker)

  /** The one state a test write may produce from a captured baseline. */
  ghost function TestState(op: Operation, b: Snapshot): Option<Content>
    requires Fits(op, b.content)
  {
    Intended(op, b.content, b.field, b.marker)
  }

  /** The test state is a change that the adapter accepts. */
  ghost predicate Acceptable(op: Operation, b: Snapshot)
    requires Fits(op, b.content)
  {
    TestState(op, b).Some? && DeltaAccepted(op, b.content, TestState(op, b).value, b.field, b.marker)
  }

  /** The baseline was read, the test state written, and exactly that read back as an acceptable change. */
  ghost predicate Tested(op: Operation, b: Snapshot, start: seq<Contact>, now: seq<Contact>)
    requires Fits(op, b.content)
  {
    Acceptable(op, b) && now == start + [Saw(b.content), Wrote(TestState(op, b).value), Saw(TestState(op, b).value)]
  }

  /** The test state was read, the baseline put back and read twice, and the test state written and read again. */
  ghost predicate Replayed(op: Operation, b: Snapshot, start: seq<Contact>, now: seq<Contact>)
    requires Fits(op, b.content)
  {
    && Acceptable(op, b)
    && now == start + [Saw(TestState(op, b).value), Wrote(b.content), Saw(b.content),
                       Saw(b.content), Wrote(TestState(op, b).value), Saw(TestState(op, b).value)]
  }

  /** Evidence of one phase: the state it ended in and whether it reports the changed path. */
  datatype Evidence = Evidence(hash: Content, changed: bool)

  class Session {
    const remote: Remote

    /** The field the capability selects in a state, and the marker that its hash gives. */
    const choose: Content -> Option<string>
    const mark: Content -> Marker
    var before: Option<Snapshot>
    var after: Option<Content>
    var intended: Option<Content>
    var usedBefore: bool
    var usedAfter: bool
    var usedReplay: bool
    var usedRestore: bool

    constructor (remote: Remote, choose: Content -> Option<string>, mark: Content -> Marker)
      ensures this.remote == remote && this.choose == choose && this.mark == mark
      ensures before.None? && after.None? && intended.None?
      ensures !usedBefore && !usedAfter && !usedReplay && !usedRestore
    {
      this.remote, this.choose, this.mark := remote, choose, mark;
      before, after, intended := None, None, None;
      usedBefore, usedAfter, usedReplay, usedRestore := false, false, false, false;
    }

    /** The one state a test write may produce. */
    ghost function Test(): Option<Content>
      reads this
      requires before.Some? && Fits(remote.op, before.value.content)
    {
      TestState(remote.op, before.value)
    }

    ghost predicate Valid()
      reads this, remote
    {
      && (before.None? ==> WritesIn(remote.log) == 0 && after.None? && intended.None?)
      && (!usedBefore ==> before.None?)
      && (before.Some? ==>
            && Fits(remote.op, before.value.content)
            && (intended.Some? ==> intended == Test())
            && (after.Some? ==> after == Test() && intended == Test())
            && Guarded(remote.log, before.value.content, Test())
            && (intended.None? ==> WritesIn(remote.log) == 0))
    }

    /** The last thing the run saw of the target is the captured baseline. */
    ghost predicate BaselineSeen()
      reads this, remote
    {
      before.Some? && LastSaw(remote.log, before.value.content)
    }

    // ----- Building blocks -----

    method ReadBack() returns (r: Option<Content>)
      requires Valid() && before.Some?
      modifies remote
      ensures Valid() && WritesIn(remote.log) == old(WritesIn(remote.log))
      ensures r.Some? ==> Fits(remote.op, r.value) && remote.content == r.value && remote.log == old(remote.log) + [Saw(r.value)]
      ensures r.None? ==> remote.log == old(remote.log) && (!remote.answers(old(remote.asked)).ok || !Fits(remote.op, remote.content))
      ensures remote.Isolated() ==> remote.content == old(remote.content)
      ensures remote.Obedient() && Fits(remote.op, old(remote.content)) ==> r.Some?
    {
      r := remote.Read();
      if r.Some? {
        WritesSnoc(old(remote.log), Saw(r.value));
        GuardedSnoc(old(remote.log), Saw(r.value), before.value.content, Test());
      }
    }

    /** One write of the test state or of the baseline, straight after the read that permits it. */
    method WriteSnapshot(snapshot: Content) returns (acknowledged: bool)
      requires Valid() && before.Some? && intended.Some? && Fits(remote.op, snapshot)
      requires (LastSaw(remote.log, before.value.content) && snapshot == intended.value)
            || (LastSaw(remote.log, intended.value) && snapshot == before.value.content)
      modifies remote
      ensures Valid() && WritesIn(remote.log) <= old(WritesIn(remote.log)) + 1
      ensures acknowledged ==> WritesIn(remote.log) == old(WritesIn(remote.log)) + 1
      ensures remote.log == old(remote.log) + [Wrote(snapshot)] || (remote.log == old(remote.log) && !acknowledged)
      ensures remote.Obedient() && Fits(remote.op, old(remote.content))
              && (remote.op.Standard? ==> before.value.field in snapshot.record && snapshot.record[before.value.field].Words?) ==>
                acknowledged && remote.content == Written(remote.op, old(remote.content), snapshot, before.value.field)
    {
      GuardedSnoc(remote.log, Wrote(snapshot), before.value.content, Test());
      WritesSnoc(remote.log, Wrote(snapshot));
      acknowledged := remote.Write(snapshot, before.value.field);
    }

    /** Writes the intended state over the baseline just read, and accepts only its exact readback. */
    method ApplyFromCurrent(current: Content) returns (r: Result<Content, Fault>)
      requires Valid() && before.Some? && current == before.value.content
      requires LastSaw(remote.log, current)
      modifies this`intended, remote
      ensures Valid() && WritesIn(remote.log) <= old(WritesIn(remote.log)) + 1
      ensures r.Ok? ==> Some(r.value) == Test() && intended == Test() && LastSaw(remote.log, r.value)
                        && WritesIn(remote.log) == old(WritesIn(remote.log)) + 1
      ensures r.Ok? <==>
                Acceptable(remote.op, before.value) && remote.log == old(remote.log) + [Wrote(Test().value), Saw(Test().value)]
      ensures |remote.log| <= |old(remote.log)| + 2
      ensures Ready() && old(remote.content) == current ==> r.Ok? && remote.content == r.value
    {
      hide Intended, DeltaAccepted, Written, Fits, Guarded, WritesIn, MarkerValid;
      var next := Intended(remote.op, current, before.value.field, before.value.marker);
      if next.None? { return Err(IntendedRefused); }
      IntendedFits(remote.op, current, before.value.field, before.value.marker);
      intended := next;
      ghost var ready := Ready() && remote.content == current;
      if ready { WritesAreExact(remote.op, current, before.value.field, before.value.marker); }
      var acknowledged := WriteSnapshot(next.value);
      if !acknowledged { return Err(WriteUnacknowledged); }
      var reread := ReadBack();
      if reread.None? { return Err(ReadRejected); }
      assert remote.log == old(remote.log) + [Wrote(next.value)] + [Saw(reread.value)];
      assert remote.log[|old(remote.log)| + 1] == Saw(reread.value);
      if reread.value != next.value { return Err(ReadbackMismatch); }
      if ready { IntendedIsAccepted(remote.op, current, before.value.field, before.value.marker); }
      if !DeltaAccepted(remote.op, current, reread.value, before.value.field, before.value.marker) {
        return Err(DeltaRejected);
      }
      return Ok(reread.value);
    }

    // ----- The four phases -----

    method CaptureBefore() returns (r: Result<Evidence, Fault>)
      requires Valid()
      modifies this`usedBefore, this`before, remote
      ensures Valid() && usedBefore && WritesIn(remote.log) == old(WritesIn(remote.log))
      ensures old(usedBefore) ==> r == Err(PhaseReused) && before == old(before)
      ensures r.Ok? ==> before.Some? && r.value == Evidence(before.value.content, false) && BaselineSeen()
      ensures r.Ok? ==> remote.log == old(remote.log) + [Saw(before.value.content)] && choose(before.value.content).Some?
      ensures !old(usedBefore) && r.Err? ==>
                || (remote.log == old(remote.log) && (!remote.answers(old(remote.asked)).ok || !Fits(remote.op, remote.content)))
                || (remote.log == old(remote.log) + [Saw(remote.content)] && choose(remote.content).None?)
      ensures |remote.log| <= |old(remote.log)| + 1
      ensures r.Ok? ==> remote.content == before.value.content
      ensures remote.Isolated() ==> remote.content == old(remote.content)
      ensures !old(usedBefore) && remote.Obedient() && Markable(old(remote.content)) ==> r.Ok? && Ready()
    {
      if usedBefore { return Err(PhaseReused); }
      usedBefore := true;
      ghost var start := remote.log;
      var state := remote.Read();
      if state.None? { return Err(ReadRejected); }
      WritesSnoc(start, Saw(state.value));
      var field := choose(state.value);
      if field.None? { return Err(FieldRefused); }
      before := Some(Snapshot(state.value, field.value, mark(state.value)));
      NoWritesGuarded(remote.log, state.value, Test());
      return Ok(Evidence(state.value, false));
    }

    /** A state the obedient target can take through the whole run. */
    ghost predicate Markable(c: Content) {
      && Fits(remote.op, c) && choose(c).Some? && MarkerValid(mark(c))
      && Intended(remote.op, c, choose(c).value, mark(c)).Some?
      && (remote.op.Zero? ==> choose(c).value != "elem_id")
    }

    method PerformTestAction() returns (r: Result<Evidence, Fault>)
      requires Valid()
      modifies this`usedAfter, this`intended, this`after, remote
      ensures Valid() && usedAfter && WritesIn(remote.log) <= old(WritesIn(remote.log)) + 1
      ensures r.Ok? ==> before.Some? && after.Some? && after == Test() && r.value == Evidence(after.value, true)
                        && WritesIn(remote.log) == old(WritesIn(remote.log)) + 1
      ensures old(usedAfter) ==> r == Err(PhaseReused) && remote.log == old(remote.log)
      ensures !old(usedAfter) ==> (r.Ok? <==> before.Some? && Tested(remote.op, before.value, old(remote.log), remote.log))
      ensures |remote.log| <= |old(remote.log)| + 3
      ensures !old(usedAfter) && Ready() && old(remote.content) == before.value.content ==>
                r.Ok? && after == Some(remote.content)
    {
      hide Intended, DeltaAccepted, Guarded, WritesIn, Fits, MarkerValid, Written;
      if usedAfter { return Err(PhaseReused); }
      usedAfter := true;
      if before.None? { return Err(BeforeRequired); }
      var current := ReadBack();
      if current.None? { return Err(ReadRejected); }
      if current.value != before.value.content { return Err(StaleBaseline); }
      var applied := ApplyFromCurrent(current.value);
      if applied.Err? { return Err(applied.error); }
      after := Some(applied.value);
      return Ok(Evidence(applied.value, true));
    }

    /** Writes the baseline over the test state just read, and accepts only its exact readback. */
    method PutBaselineBack() returns (r: Result<Content, Fault>)
      requires Valid() && before.Some? && intended.Some? && LastSaw(remote.log, intended.value)
      modifies remote
      ensures Valid() && WritesIn(remote.log) <= old(WritesIn(remote.log)) + 1
      ensures r.Ok? ==> r.value == before.value.content && LastSaw(remote.log, r.value) && remote.content == r.value
                        && WritesIn(remote.log) == old(WritesIn(remote.log)) + 1
      ensures r.Ok? <==> remote.log == old(remote.log) + [Wrote(before.value.content), Saw(before.value.content)]
      ensures old(remote.log) <= remote.log
      ensures |remote.log| <= |old(remote.log)| + 2
      ensures Ready() && intended == Test() && intended == Some(old(remote.content)) ==> r.Ok?
    {
      ghost var ready := Ready() && intended == Test() && intended == Some(remote.content);
      if ready {
        WritesAreExact(remote.op, before.value.content, before.value.field, before.value.marker);
        IntendedFits(remote.op, before.value.content, before.value.field, before.value.marker);
      }
      var acknowledged := WriteSnapshot(before.value.content);
      if !acknowledged { return Err(WriteUnacknowledged); }
      var restored := ReadBack();
      if restored.None? { return Err(ReadRejected); }
      if restored.value != before.value.content { return Err(RestoreMismatch); }
      return Ok(restored.value);
    }

    /** The restore inside the replay starts only from the state that the test action left. */
    method RestoreToBaseline() returns (r: Result<Content, Fault>)
      requires Valid() && before.Some? && after.Some? && intended == after
      modifies remote
      ensures Valid() && WritesIn(remote.log) <= old(WritesIn(remote.log)) + 1
      ensures r.Ok? ==> r.value == before.value.content && LastSaw(remote.log, r.value) && remote.content == r.value
                        && WritesIn(remote.log) == old(WritesIn(remote.log)) + 1
      ensures r.Ok? <==>
                remote.log == old(remote.log) + [Saw(after.value), Wrote(before.value.content), Saw(before.value.content)]
      ensures |remote.log| <= |old(remote.log)| + 3
      ensures Ready() && after == Some(old(remote.content)) ==> r.Ok?
    {
      ghost var fits := Ready() && after == Some(remote.content);
      if fits { IntendedFits(remote.op, before.value.content, before.value.field, before.value.marker); }
      var current := ReadBack();
      if current.None? { return Err(ReadRejected); }
      if current.value != after.value { return Err(RestoreGuard); }
      r := PutBaselineBack();
    }

    method ReplayRecipe() returns (r: Result<Evidence, Fault>)
      requires Valid()
      modifies this`usedReplay, this`intended, remote
      ensures Valid() && usedReplay && WritesIn(remote.log) <= old(WritesIn(remote.log)) + 2
      ensures r.Ok? ==> before.Some? && after.Some? && after == Test() && r.value == Evidence(after.value, true)
                        && WritesIn(remote.log) == old(WritesIn(remote.log)) + 2
      ensures old(usedReplay) ==> r == Err(PhaseReused) && remote.log == old(remote.log)
      ensures !old(usedReplay) && before.Some? && after.Some? ==> (r.Ok? <==> Replayed(remote.op, before.value, old(remote.log), remote.log))
      ensures |remote.log| <= |old(remote.log)| + 6
      ensures !old(usedReplay) && Ready() && after.Some? && after == Some(old(remote.content)) ==>
                r.Ok? && remote.content == after.value
    {
      hide Intended, DeltaAccepted, Guarded, WritesIn, Fits, MarkerValid, Written;
      if usedReplay { return Err(PhaseReused); }
      usedReplay := true;
      if before.None? { return Err(BeforeRequired); }
      if after.None? { return Err(ReplayUnavailable); }
      var restored := RestoreToBaseline();
      if restored.Err? { return Err(restored.error); }
      var current := ReadBack();
      if current.None? { return Err(ReadRejected); }
      if current.value != before.value.content { return Err(ReplayBaselineMismatch); }
      var replay := ApplyFromCurrent(current.value);
      if replay.Err? { return Err(replay.error); }
      if replay.value != after.value { return Err(ReplayMismatch); }
      return Ok(Evidence(replay.value, true));
    }

    /** Restores the baseline from the test state, or finds it already there; anything else is left untouched. */
    method RestoreBaseline() returns (r: Result<Evidence, Fault>)
      requires Valid()
      modifies this`usedRestore, remote
      ensures Valid() && usedRestore && WritesIn(remote.log) <= old(WritesIn(remote.log)) + 1
      ensures old(usedRestore) ==> r == Err(PhaseReused) && remote.log == old(remote.log)
      ensures r.Ok? ==> BaselineSeen() && remote.content == before.value.content
                        && r.value == Evidence(before.value.content, false)
      ensures !old(usedRestore) ==> (r.Ok? <==> before.Some? && FoundAgain(old(remote.log), remote.log, before.value.content, Test()))
      ensures !old(usedRestore) && before.Some? && remote.log == old(remote.log) ==>
                !remote.answers(old(remote.asked)).ok || !Fits(remote.op, remote.content)
      ensures old(remote.log) <= remote.log && |remote.log| <= |old(remote.log)| + 3
      ensures !old(usedRestore) && Ready() && intended == Test() && Some(old(remote.content)) == Test()
              && Test() != Some(before.value.content) ==>
                r.Ok? && WritesIn(remote.log) == old(WritesIn(remote.log)) + 1
    {
      hide Intended, Guarded, WritesIn, Fits, MarkerValid, Written;
      if usedRestore { return Err(PhaseReused); }
      usedRestore := true;
      if before.None? { return Err(BeforeRequired); }
      ghost var fits := Ready() && Some(remote.content) == Test();
      if fits { IntendedFits(remote.op, before.value.content, before.value.field, before.value.marker); }
      var current := ReadBack();
      if current.None? { return Err(ReadRejected); }
      assert remote.log[|old(remote.log)|] == Saw(current.value);
      if current.value != before.value.content {
        if intended.None? || current.value != intended.value { return Err(RestoreGuard); }
        var restored := PutBaselineBack();
        if restored.Err? { return Err(restored.error); }
      }
      return Ok(Evidence(before.value.content, false));
    }

    /** The target is obedient and undisturbed, and its baseline can be marked. */
    ghost predicate Ready()
      reads this
    {
      && remote.Obedient()
      && before.Some? && Fits(remote.op, before.value.content) && MarkerValid(before.value.marker)
      && Test().Some?
      && (remote.op.Zero? ==> before.value.field != "elem_id")
    }
  }

  lemma IntendedFits(op: Operation, c: Content, field: string, marker: Marker)
    requires Fits(op, c) && Intended(op, c, field, marker).Some?
    ensures Fits(op, Intended(op, c, field, marker).value)
    ensures op.Standard? ==> var next := Intended(op, c, field, marker).value;
                             field in next.record && next.record[field].Words? && field in c.record && c.record[field].Words?
  {
  }
}
