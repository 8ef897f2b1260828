/** The workflow around the four phases: one durable claim, one pinned run, one final entry at most. */
module LearningRun {
  import opened Prelude
  import opened LearningContent
  import opened LearningSession

  datatype ClaimStatus = Open | Completed | Failed | Ambiguous

  /** What the execution journal answered when the run asked for its claim. */
  datatype ClaimAnswer = Claimed | AlreadyCompleted | AlreadyFailed | ClaimRefused

  datatype Recipe = Recipe(beforeHash: Content, afterHash: Content, replayHash: Content, restoredHash: Content)

  datatype Reason =
    | Registered | ReusedRecipe | CompletedRecipeMissing | IdempotencyTerminal
    | Rejected | PhaseFailed(fault: Fault) | RestoreFailed | JournalFailed

  datatype Report = Report(ok: bool, reason: Reason, stateChanged: bool, recipe: Option<Recipe>)

  function Failure(reason: Reason, stateChanged: bool): Report { Report(false, reason, stateChanged, None) }

  /** Nothing was written, or the last thing seen of the target is the captured baseline. */
  predicate Restored(log: seq<Contact>, base: Option<Content>) {
    WritesIn(log) == 0 || (base.Some? && LastSaw(log, base.value))
  }

  /** A durable write took effect, whether or not it was reported as done. */
  predicate Took(a: Answer) { a.ok || a.recorded }

  /** Everything the four phases read and wrote when they all went through. */
  ghost predicate WholeRun(op: Operation, b: Snapshot, log: seq<Contact>)
    requires Fits(op, b.content)
  {
    && |log| > 10 && log[..1] == [Saw(b.content)]
    && Tested(op, b, log[..1], log[..4]) && Replayed(op, b, log[..4], log[..10])
    && FoundAgain(log[..10], log, b.content, TestState(op, b))
  }

  lemma Assembled(op: Operation, b: Snapshot, seen: seq<Contact>, tested: seq<Contact>, replayed: seq<Contact>, log: seq<Contact>)
    requires Fits(op, b.content) && seen == [Saw(b.content)] && replayed <= log
    requires Tested(op, b, seen, tested) && Replayed(op, b, tested, replayed)
    ensures |replayed| == 10
    ensures WholeRun(op, b, log) <==> |log| > 10 && FoundAgain(replayed, log, b.content, TestState(op, b))
  {
    hide DeltaAccepted, Intended, Fits;
    assert log[..10] == replayed && log[..4] == replayed[..4] == tested && log[..1] == tested[..1] == seen;
  }

  /** The restore that follows a failed run: what had been read and written, and asked, when it began, and whether the run had used its restore up. */
  datatype Recovery = Recovery(contacts: nat, asked: nat, reused: bool)

  class Workflow {
    const remote: Remote
    var claim: ClaimStatus

    /** What this run left in the recipe registry. */
    var registered: Option<Recipe>

    /** The first outside call of the registration, if the run came that far. */
    ghost var registering: Option<nat>

    /** How often a final entry was attempted. */
    ghost var finishes: nat

    constructor (remote: Remote)
      ensures this.remote == remote && claim == Open && registered.None? && registering.None? && finishes == 0
    {
      this.remote := remote;
      claim, registered, registering, finishes := Open, None, None, 0;
    }

    /** A final entry either is written and reported, or fails and may have been written all the same. */
    method Finish(status: ClaimStatus) returns (ok: bool)
      modifies this`claim, this`finishes, remote`asked
      ensures finishes == old(finishes) + 1
      ensures claim == if Took(remote.answers(old(remote.asked))) then status else old(claim)
      ensures remote.asked == old(remote.asked) + 1
      ensures ok == remote.answers(old(remote.asked)).ok
      ensures remote.Obedient() ==> ok
    {
      finishes := finishes + 1;
      var a := remote.Ask();
      if a.ok || a.recorded { claim := status; }
      ok := a.ok;
    }

    method FailClaim(reason: Reason) returns (report: Report)
      modifies this`claim, this`finishes, remote`asked
      ensures finishes == old(finishes) + 1 && remote.asked == old(remote.asked) + 1
      ensures claim == if Took(remote.answers(old(remote.asked))) then Failed else old(claim)
      ensures report == Failure(if remote.answers(old(remote.asked)).ok then reason else JournalFailed, false)
    {
      var ok := Finish(Failed);
      return Failure(if ok then reason else JournalFailed, false);
    }

    method AmbiguousClaim() returns (report: Report)
      modifies this`claim, this`finishes, remote`asked
      ensures finishes == old(finishes) + 1 && remote.asked == old(remote.asked) + 1
      ensures claim == if Took(remote.answers(old(remote.asked))) then Ambiguous else old(claim)
      ensures report == Failure(if remote.answers(old(remote.asked)).ok then RestoreFailed else JournalFailed, true)
    {
      var ok := Finish(Ambiguous);
      return Failure(if ok then RestoreFailed else JournalFailed, true);
    }

    // ----- Phases under the pinned lineage -----

    method BeforePhase(session: Session) returns (r: Result<Evidence, Fault>)
      requires session.remote == remote && session.Valid() && !session.usedBefore
      modifies session`usedBefore, session`before, remote
      ensures session.Valid() && WritesIn(remote.log) == old(WritesIn(remote.log))
      ensures r.Ok? ==> session.before.Some? && r.value == Evidence(session.before.value.content, false)
                        && remote.content == session.before.value.content && LastSaw(remote.log, r.value.hash)
      ensures r.Ok? ==> remote.log == old(remote.log) + [Saw(r.value.hash)]
      ensures |remote.log| <= |old(remote.log)| + 1
      ensures remote.Isolated() ==> remote.content == old(remote.content)
      ensures remote.Obedient() && session.Markable(old(remote.content)) ==> r.Ok? && session.Ready()
    {
      var held := remote.Check();
      if !held { return Err(CheckFailed); }
      r := session.CaptureBefore();
      if r.Err? { return; }
      held := remote.Check();
      if !held { return Err(CheckFailed); }
    }

    method TestPhase(session: Session) returns (r: Result<Evidence, Fault>)
      requires session.remote == remote && session.Valid() && !session.usedAfter
      modifies session`usedAfter, session`intended, session`after, remote
      ensures session.Valid() && WritesIn(remote.log) <= old(WritesIn(remote.log)) + 1
      ensures r.Ok? ==> session.before.Some? && session.after.Some? && r.value == Evidence(session.after.value, true)
                        && WritesIn(remote.log) == old(WritesIn(remote.log)) + 1
      ensures r.Ok? ==> Tested(remote.op, session.before.value, old(remote.log), remote.log) && session.after == session.Test()
      ensures |remote.log| <= |old(remote.log)| + 3
      ensures session.Ready() && old(remote.content) == session.before.value.content ==>
                r.Ok? && session.after == Some(remote.content)
    {
      var held := remote.Check();
      if !held { return Err(CheckFailed); }
      r := session.PerformTestAction();
      if r.Err? { return; }
      held := remote.Check();
      if !held { return Err(CheckFailed); }
    }

    method ReplayPhase(session: Session) returns (r: Result<Evidence, Fault>)
      requires session.remote == remote && session.Valid() && !session.usedReplay
      modifies session`usedReplay, session`intended, remote
      ensures session.Valid() && WritesIn(remote.log) <= old(WritesIn(remote.log)) + 2
      ensures r.Ok? ==> session.after.Some? && r.value == Evidence(session.after.value, true)
                        && WritesIn(remote.log) == old(WritesIn(remote.log)) + 2
      ensures r.Ok? && session.before.Some? ==> Replayed(remote.op, session.before.value, old(remote.log), remote.log)
      ensures |remote.log| <= |old(remote.log)| + 6
      ensures session.Ready() && session.after.Some? && session.after == Some(old(remote.content)) ==>
                r.Ok? && remote.content == session.after.value
    {
      var held := remote.Check();
      if !held { return Err(CheckFailed); }
      r := session.ReplayRecipe();
      if r.Err? { return; }
      held := remote.Check();
      if !held { return Err(CheckFailed); }
    }

    /** The last thing asked of the outside, a lineage check here, was granted. */
    ghost predicate LastHeld()
      reads remote
    {
      remote.asked > 0 && remote.answers(remote.asked - 1).ok
    }

    method RestorePhase(session: Session) returns (r: Result<Evidence, Fault>)
      requires session.remote == remote && session.Valid()
      modifies session`usedRestore, remote
      ensures session.Valid() && WritesIn(remote.log) <= old(WritesIn(remote.log)) + 1
      ensures old(session.usedRestore) ==> r.Err? && remote.log == old(remote.log)
      ensures !session.usedRestore ==> remote.log == old(remote.log)
      ensures r.Ok? ==> session.BaselineSeen() && r.value == Evidence(session.before.value.content, false)
                        && remote.content == session.before.value.content
      ensures session.before.Some? ==>
                (r.Ok? <==> !old(session.usedRestore) && FoundAgain(old(remote.log), remote.log, session.before.value.content, session.Test()) && LastHeld())
      ensures !old(session.usedRestore) && session.before.Some? && remote.log == old(remote.log) ==>
                !remote.answers(old(remote.asked)).ok || !remote.answers(old(remote.asked) + 1).ok || !Fits(remote.op, remote.content)
      ensures old(remote.log) <= remote.log && |remote.log| <= |old(remote.log)| + 3
      ensures !old(session.usedRestore) && session.Ready() && session.intended == session.Test()
              && Some(old(remote.content)) == session.Test() && session.Test() != Some(session.before.value.content) ==>
                r.Ok? && WritesIn(remote.log) == old(WritesIn(remote.log)) + 1
    {
      var held := remote.Check();
      if !held { return Err(CheckFailed); }
      r := session.RestoreBaseline();
      if r.Err? { return; }
      held := remote.Check();
      if !held { return Err(CheckFailed); }
    }

    /** A session that nothing has used yet. */
    ghost predicate Unused(session: Session)
      reads session, remote
    {
      && session.remote == remote && session.Valid()
      && session.before.None? && !session.usedBefore && !session.usedAfter && !session.usedReplay && !session.usedRestore
    }

    /** Capture, mutate, replay and restore; any failure ends the sequence, with the captured evidence if there is one. */
    method RunPhases(session: Session) returns (r: Result<Recipe, Fault>, before: Option<Evidence>)
      requires Unused(session) && remote.log == []
      modifies session, remote
      ensures session.Valid() && WritesIn(remote.log) <= 4
      ensures !session.usedRestore ==> WritesIn(remote.log) <= 3
      ensures session.usedRestore ==> |remote.log| >= 10
      ensures before.None? ==> r.Err? && WritesIn(remote.log) == 0
      ensures before.Some? ==> session.before.Some? && before.value.hash == session.before.value.content
      ensures r.Ok? <==> before.Some? && WholeRun(remote.op, session.before.value, remote.log) && LastHeld()
      ensures remote.Isolated() ==>
                if before.None? then remote.content == old(remote.content) else before.value.hash == old(remote.content)
      ensures r.Ok? ==> && before.Some? && session.BaselineSeen() && remote.content == before.value.hash
                        && session.after.Some? && session.after.value != before.value.hash
                        && r.value == Recipe(before.value.hash, session.after.value, session.after.value, before.value.hash)
      ensures remote.Obedient() && session.Markable(old(remote.content)) ==> r.Ok? && WritesIn(remote.log) == 4
    {
      hide WritesIn, Guarded, Intended, DeltaAccepted, Fits, MarkerValid;
      before := None;
      assert WritesIn(remote.log) == 0 by { NothingWritten(); }
      var captured := BeforePhase(session);
      if captured.Err? { return Err(captured.error), None; }
      before := Some(captured.value);
      ghost var ready := session.Ready();
      if ready {
        IntendedDiffers(remote.op, session.before.value.content, session.before.value.field, session.before.value.marker);
      }
      ghost var seen := remote.log;
      var after := TestPhase(session);
      ghost var tested := remote.log;
      if after.Err? { return Err(after.error), before; }
      if after.value.hash == captured.value.hash || !after.value.changed { return Err(NoMutation), before; }
      var replay := ReplayPhase(session);
      ghost var replayed := remote.log;
      if replay.Err? { return Err(replay.error), before; }
      if replay.value.hash != after.value.hash || replay.value.changed != after.value.changed {
        return Err(ReplayMismatch), before;
      }
      var restored := RestorePhase(session);
      Assembled(remote.op, session.before.value, seen, tested, replayed, remote.log);
      if restored.Err? { return Err(restored.error), before; }
      if restored.value.hash != captured.value.hash { return Err(RestoreMismatch), before; }
      return Ok(Recipe(captured.value.hash, after.value.hash, replay.value.hash, restored.value.hash)), before;
    }
  
    // ----- Registration -----

    /** When `n` things had been asked and `k` contacts made, all four phases had gone through and the lineage held. */
    ghost predicate PhasesWent(b: Snapshot, k: nat, n: nat)
      reads remote
      requires Fits(remote.op, b.content) && k <= |remote.log|
    {
      WholeRun(remote.op, b, remote.log[..k]) && n > 0 && remote.answers(n - 1).ok
    }

    /** From call `n` on, the lineage held and the recipe reached the registry. */
    predicate RecipeKept(n: nat) { remote.answers(n).ok && Took(remote.answers(n + 1)) }

    /** The registry reported it, the lineage still held, and the claim's completion was recorded. */
    predicate CompletionKept(n: nat) {
      remote.answers(n + 1).ok && remote.answers(n + 2).ok && Took(remote.answers(n + 3))
    }

    /**
     The lineage check, the registry write, the lineage check again and the completion of the claim. The recipe
     stays in the registry under a claim that is not completed exactly when it reached the registry and one of
     the later three failed: the registry's own report, the second check, or the completion.
     */
    method Register(recipe: Recipe) returns (report: Report)
      requires claim == Open && registered.None?
      modifies this, remote`asked
      ensures finishes == old(finishes) + 1 && registering == Some(old(remote.asked))
      ensures registered == if RecipeKept(old(remote.asked)) then Some(recipe) else None
      ensures claim.Completed? <==> RecipeKept(old(remote.asked)) && CompletionKept(old(remote.asked))
      ensures !claim.Ambiguous? && (!claim.Completed? && remote.Recorded() ==> claim.Failed?)
      ensures report.ok <==>
                var n := old(remote.asked);
                remote.answers(n).ok && remote.answers(n + 1).ok && remote.answers(n + 2).ok && remote.answers(n + 3).ok
      ensures claim.Failed? <==>
                var n := old(remote.asked);
                && !(remote.answers(n).ok && remote.answers(n + 1).ok && remote.answers(n + 2).ok)
                && remote.asked > 0 && Took(remote.answers(remote.asked - 1))
      ensures report == if report.ok then Report(true, Registered, false, Some(recipe))
                        else Failure(if remote.asked > 0 && remote.answers(remote.asked - 1).ok then Rejected else JournalFailed, false)
      ensures report.ok ==> claim.Completed? && registered == Some(recipe)
      ensures remote.Obedient() ==> report.ok
    {
      registering := Some(remote.asked);
      var kept := remote.Check();
      if !kept {
        report := FailClaim(Rejected);
        return;
      }
      var upsert := remote.Ask();
      if Took(upsert) { registered := Some(recipe); }
      if !upsert.ok {
        report := FailClaim(Rejected);
        return;
      }
      var still := remote.Check();
      if !still {
        report := FailClaim(Rejected);
        return;
      }
      var finished := Finish(Completed);
      if !finished { return Failure(JournalFailed, false); }
      return Report(true, Registered, false, Some(recipe));
    }

    // ----- The whole run -----

    /** The restore after a failed run read the baseline back, and the lineage still held when it was done. */
    ghost predicate Recovered(tried: Option<Recovery>, base: Option<Content>, test: Option<Content>)
      reads remote
    {
      && tried.Some? && base.Some? && !tried.value.reused && tried.value.contacts <= |remote.log|
      && FoundAgain(remote.log[..tried.value.contacts], remote.log, base.value, test)
      && remote.asked > 1 && remote.answers(remote.asked - 2).ok
    }

    /** How a run that did not come to its registration leaves the claim, given that its final entry was the last thing asked. */
    ghost predicate EndsUnregistered(report: Report, tried: Option<Recovery>, base: Option<Content>, test: Option<Content>)
      reads this, remote
    {
      && remote.asked > 0
      && var last := remote.answers(remote.asked - 1);
         var proved := tried.None? || Recovered(tried, base, test);
         && claim == (if !Took(last) then Open else if proved then Failed else Ambiguous)
         && report.stateChanged == !proved && !report.ok && report.recipe.None?
         && (if !last.ok then report.reason.JournalFailed? else if proved then report.reason.PhaseFailed? || report.reason.Rejected?
             else report.reason.RestoreFailed?)
    }

    /** A restore is given up without reading the target only when it had been used up, or its check or its read failed. */
    ghost predicate TriedInEarnest(tried: Recovery)
      reads remote
    {
      && tried.contacts <= |remote.log|
      && (tried.reused ==> tried.contacts >= 10)
      && (!tried.reused && |remote.log| == tried.contacts ==>
            !remote.answers(tried.asked).ok || !remote.answers(tried.asked + 1).ok || !Fits(remote.op, remote.content))
    }

    /** Ends a failed run: nothing to restore, or one more restore whose outcome decides between FAILED and AMBIGUOUS. */
    method EndFailed(session: Session, before: Option<Evidence>, ghost base: Option<Content>, fault: Fault)
      returns (report: Report, ghost tried: Option<Recovery>)
      requires session.remote == remote && session.Valid() && claim == Open
      requires base == if before.Some? then Some(before.value.hash) else None
      requires base.Some? ==> session.before.Some? && base.value == session.before.value.content
      requires session.usedRestore ==> |remote.log| >= 10
      modifies this`claim, this`finishes, session`usedRestore, remote
      ensures session.Valid() && finishes == old(finishes) + 1
      ensures base.Some? ==> Fits(remote.op, session.before.value.content)
      ensures tried == if base.Some? then Some(Recovery(|old(remote.log)|, old(remote.asked), old(session.usedRestore))) else None
      ensures tried.Some? ==> TriedInEarnest(tried.value)
      ensures EndsUnregistered(report, tried, base, if base.Some? then session.Test() else None)
      ensures old(remote.log) <= remote.log && WritesIn(remote.log) <= old(WritesIn(remote.log)) + 1
      ensures old(session.usedRestore) || base.None? ==> remote.log == old(remote.log)
      ensures base.Some? && (claim.Failed? || !report.stateChanged) ==>
                LastSaw(remote.log, base.value) && remote.content == base.value
      ensures base.None? ==> remote.content == old(remote.content)
    {
      hide WritesIn, Guarded, Intended, DeltaAccepted, MarkerValid, Fits;
      tried := None;
      if before.Some? {
        tried := Some(Recovery(|remote.log|, remote.asked, session.usedRestore));
        var restored := RestorePhase(session);
        assert remote.log[..tried.value.contacts] == old(remote.log);
        if restored.Err? || restored.value.hash != before.value.hash {
          report := AmbiguousClaim();
          return;
        }
      }
      report := FailClaim(PhaseFailed(fault));
    }

    /** Runs the phases; when they fail after the baseline was captured, one restore decides how the claim ends. */
    method LearnWith(session: Session)
      returns (report: Report, ghost base: Option<Content>, ghost tried: Option<Recovery>)
      requires Unused(session) && remote.log == [] && claim == Open && registered.None? && registering.None?
      modifies this, session, remote
      ensures finishes <= old(finishes) + 1
      ensures tried.Some? <==> base.Some? && registering.None?
      ensures tried.Some? ==> TriedInEarnest(tried.value)
      ensures base.Some? ==> session.before.Some? && Fits(remote.op, session.before.value.content)
      ensures registering.None? ==> EndsUnregistered(report, tried, base, if base.Some? then session.Test() else None)
      ensures registering.Some? ==> !claim.Ambiguous? && !report.stateChanged && base.Some?
      ensures base.Some? && registering.Some? ==> PhasesWent(session.before.value, |remote.log|, registering.value)
      ensures tried.Some? ==> tried.value.contacts <= |remote.log| && !PhasesWent(session.before.value, tried.value.contacts, tried.value.asked)
      ensures WritesIn(remote.log) <= 4
      ensures base.Some? ==> session.Valid() && session.before.Some? && base.value == session.before.value.content
      ensures base.None? ==> WritesIn(remote.log) == 0
      ensures claim.Completed? || claim.Failed? ==> Restored(remote.log, base)
      ensures (claim.Completed? || claim.Failed?) && remote.Isolated() ==> remote.content == old(remote.content)
      ensures !report.stateChanged ==> Restored(remote.log, base)
      ensures report.recipe.Some? == report.reason.Registered?
      ensures registered.Some? <==> registering.Some? && RecipeKept(registering.value)
      ensures registered.Some? ==> (claim.Completed? <==> CompletionKept(registering.value))
      ensures registered.Some? ==> base.Some? && LastSaw(remote.log, base.value) && registered.value.restoredHash == base.value
      ensures report.recipe.Some? ==> registered == report.recipe
      ensures report.recipe.Some? ==>
                && report.ok && claim.Completed? && base.Some?
                && session.after.Some? && session.after.value != base.value
                && report.recipe.value == Recipe(base.value, session.after.value, session.after.value, base.value)
      ensures remote.Obedient() && session.Markable(old(remote.content)) ==>
                && report.ok && report.recipe.Some? && claim.Completed? && WritesIn(remote.log) == 4
                && remote.content == old(remote.content)
    {
      hide WritesIn, Guarded, Intended, DeltaAccepted, Fits, MarkerValid, FoundAgain, WholeRun;
      base, tried := None, None;
      var phases, before := RunPhases(session);
      if before.Some? { base := Some(before.value.hash); }
      if phases.Err? {
        ghost var contacts := remote.log;
        report, tried := EndFailed(session, before, base, phases.error);
        assert remote.log[..|contacts|] == contacts;
        return;
      }
      assert remote.log[..|remote.log|] == remote.log;
      report := Register(phases.value);
    }

    /** What is answered, and where the claim stands, when the journal or the registry already knows the outcome. */
    ghost predicate NoRunNeeded(answer: ClaimAnswer, found: Option<Recipe>, n: nat, report: Report)
      reads this, remote
    {
      && remote.log == []
      && (if !remote.answers(n).ok || answer.ClaimRefused? then claim == Open && report == Failure(Rejected, false)
          else if answer.AlreadyFailed? then claim == Open && report == Failure(IdempotencyTerminal, false)
          else if answer.AlreadyCompleted? then
            && claim == Open
            && report == (if !remote.answers(n + 1).ok then Failure(Rejected, false)
                          else if found.None? then Failure(CompletedRecipeMissing, false)
                          else Report(true, ReusedRecipe, false, found))
          else if !remote.answers(n + 1).ok then
            && claim == (if Took(remote.answers(n + 2)) then Failed else Open)
            && report == Failure(if remote.answers(n + 2).ok then Rejected else JournalFailed, false)
          else if !remote.answers(n + 2).ok then claim == Open && report == Failure(Rejected, false)
          else
            && claim == (if Took(remote.answers(n + 3)) then Completed else Open)
            && report == (if remote.answers(n + 3).ok then Report(true, ReusedRecipe, false, found)
                          else Failure(JournalFailed, false)))
    }

    /**
     A pinned learning run. Whatever the target, other editors and the journal do: at most
     four writes, each guarded by the read before it; at most one final entry; and the claim
     ends completed or failed only when nothing was written or the captured baseline is the
     last thing seen.
     */
    method Learn(answer: ClaimAnswer, found: Option<Recipe>, choose: Content -> Option<string>, mark: Content -> Marker)
      returns (report: Report, ghost base: Option<Content>, ghost test: Option<Content>, ghost tried: Option<Recovery>)
      requires remote.log == [] && claim == Open && registered.None? && registering.None? && finishes == 0
      modifies this, remote
      ensures finishes <= 1 && WritesIn(remote.log) <= 4
      ensures base.Some? ==> Guarded(remote.log, base.value, test)
      ensures base.None? ==> WritesIn(remote.log) == 0
      ensures claim.Completed? || claim.Failed? ==> Restored(remote.log, base)
      ensures (claim.Completed? || claim.Failed?) && remote.Isolated() ==> remote.content == old(remote.content)
      ensures !report.stateChanged ==> Restored(remote.log, base)
      ensures tried.Some? ==> base.Some? && TriedInEarnest(tried.value) && EndsUnregistered(report, tried, base, test)
      ensures tried.None? ==> !claim.Ambiguous? && !report.stateChanged
      ensures answer.Claimed? && found.None? && base.None? && remote.Recorded() && remote.answers(old(remote.asked)).ok ==>
                claim.Failed?
      ensures answer.Claimed? && found.None? && base.Some? && registering.None? ==> tried.Some?
      ensures !answer.Claimed? || found.Some? ==> NoRunNeeded(answer, found, old(remote.asked), report)
      ensures !answer.Claimed? ==> finishes == 0 && remote.log == [] && registered.None?
      ensures registered.Some? <==> registering.Some? && RecipeKept(registering.value)
      ensures registered.Some? ==> (claim.Completed? <==> CompletionKept(registering.value))
      ensures registered.Some? ==> base.Some? && LastSaw(remote.log, base.value) && registered.value.restoredHash == base.value
      ensures report.reason.Registered? ==> registered == report.recipe
      ensures report.reason.Registered? ==>
                && report.ok && report.recipe.Some? && claim.Completed? && base.Some?
                && report.recipe.value.beforeHash == report.recipe.value.restoredHash == base.value
                && report.recipe.value.afterHash == report.recipe.value.replayHash != base.value
      ensures remote.Obedient() && answer.Claimed? && found.None?
              && Fits(remote.op, old(remote.content)) && Editable(remote.op, old(remote.content), choose, mark) ==>
                && report.reason.Registered? && WritesIn(remote.log) == 4 && remote.content == old(remote.content)
    {
      hide WritesIn, Guarded, Intended, DeltaAccepted;
      base, test, tried := None, None, None;
      NothingWritten();
      var held := remote.Check();
      if !held { return Failure(Rejected, false), base, test, tried; }
      match answer {
        case ClaimRefused => return Failure(Rejected, false), base, test, tried;
        case AlreadyCompleted =>
          var searched := remote.Check();
          if !searched { return Failure(Rejected, false), base, test, tried; }
          if found.None? { return Failure(CompletedRecipeMissing, false), base, test, tried; }
          return Report(true, ReusedRecipe, false, found), base, test, tried;
        case AlreadyFailed => return Failure(IdempotencyTerminal, false), base, test, tried;
        case Claimed =>
      }
      var looked := remote.Check();
      if !looked {
        report := FailClaim(Rejected);
        return;
      }
      if found.Some? {
        var pinned := remote.Check();
        if !pinned { return Failure(Rejected, false), base, test, tried; }
        var finished := Finish(Completed);
        if !finished { return Failure(JournalFailed, false), base, test, tried; }
        return Report(true, ReusedRecipe, false, found), base, test, tried;
      }
      var ready := remote.Check();
      if !ready {
        report := FailClaim(Rejected);
        return;
      }
      var session := new Session(remote, choose, mark);
      report, base, tried := LearnWith(session);
      if base.Some? { test := session.Test(); }
    }
  }

  /** The lineage is gone when it is checked again: the recipe stays registered under a claim that ends failed. */
  method RecipeOutlivesClaim(op: Operation, content: Content, recipe: Recipe) returns (w: Workflow)
    ensures w.registered == Some(recipe) && w.claim.Failed?
  {
    var remote := new Remote(op, n => if n == 2 then WILLING.(ok := false) else WILLING, content);
    w := new Workflow(remote);
    var report := w.Register(recipe);
  }

  /** The adapter finds a field, and the field takes the marker. */
  ghost predicate Editable(op: Operation, c: Content, choose: Content -> Option<string>, mark: Content -> Marker)
    requires Fits(op, c)
  {
    && choose(c).Some? && MarkerValid(mark(c))
    && Intended(op, c, choose(c).value, mark(c)).Some?
    && (op.Zero? ==> choose(c).value != "elem_id")
  }

  lemma NothingWritten()
    ensures WritesIn([]) == 0
  {
  }
}
