/** What a publication call answers, and how the answer, the journal and the sight of the page agree. */
module PublicationAnswers {
  import opened Prelude
  import opened Publication
  import opened PublicationRuns

  predicate Silent(o: Outcome, result: Result<Report, Error>) { o.effects == [] && o.result == result }

  /** What is answered before a key is looked at, and for a key that means something else. */
  lemma RefusalsAndDryRuns(d: Disk, key: Option<nat>, action: Action, target: nat, dryRun: bool, a: Answers, claimedAt: nat, now: nat)
    requires a.rereads != []
    ensures var o := Execute(d, key, action, target, dryRun, a, claimedAt, now);
            && (dryRun && a.before.None? ==> Silent(o, Err(ReadFailed)))
            && (dryRun && a.before.Some? ==> Silent(o, Ok(Report(a.before.value, false, true))))
            && (!dryRun && key.None? ==> Silent(o, Err(KeyRequired)))
            && (!dryRun && key.Some? && a.before.None? ==> Silent(o, Err(ReadFailed)))
            && (!dryRun && key.Some? && a.before.Some? ==>
                  && (key.value in d.histories && !Loadable(d, key.value) ==> Silent(o, Err(StateCorrupt)))
                  && (Loadable(d, key.value) && (Last(d, key.value).action != action || Last(d, key.value).target != target) ==>
                        Silent(o, Err(IdempotencyConflict)))
                  && (key.value !in d.histories && key.value in d.bound && !d.bound[key.value] ==>
                        Silent(o, Err(IdempotencyConflict))))
  {
    hide ReconcileReplay, AfterSend, Finish, Desired;
  }

  /** The page shows what was asked for, and nothing else of it changed since the claim. */
  predicate Wanted(r: Record, s: Option<Seen>) {
    s.Some? && s.value.published == r.action.Publish? && s.value.changed == r.beforeChanged
  }

  /** The page shows exactly what it showed at the claim. */
  predicate Untouched(r: Record, s: Option<Seen>) {
    s == Some(Seen(r.beforePublished, r.beforeChanged))
  }

  /** A call under a known key of the same intent, when its outcome is on record. */
  lemma SettledKeysAnswer(d: Disk, key: nat, a: Answers, claimedAt: nat, now: nat)
    requires a.rereads != [] && Loadable(d, key) && !Last(d, key).state.Claimed? && a.before.Some?
    ensures var r := Last(d, key);
            var o := Execute(d, Some(key), r.action, r.target, false, a, claimedAt, now);
            Silent(o, if r.state.Failed? || r.state.Ambiguous? then Err(RecoveryRequired)
                      else if Wanted(r, a.before) then Ok(Report(a.before.value, false, false))
                      else Err(ReplayDrift))
  {
  }

  /** Everything but the outcome of the claim that the key has when the call is over: the one on record, or the one it takes. */
  function ClaimOf(d: Disk, key: nat, action: Action, target: nat, before: Seen, claimedAt: nat): Record {
    if Loadable(d, key) then Last(d, key)
    else Record(key, action, target, claimedAt, before.published, before.changed, Claimed, claimedAt, None, None)
  }

  /** What the call saw last of the page: its deciding reread when it wrote, else its first read. */
  function LastSight(r: Record, a: Answers, wrote: bool): Option<Seen>
    requires a.rereads != []
  {
    if wrote then a.rereads[Deciding(r.action, r, a.rereads)] else a.before
  }

  function CodeOf(r: Record, a: Answers, known: bool, wrote: bool): Option<Reconciliation> {
    if known then Some(ReplayReconciled)
    else if !wrote || a.reply.Acknowledged? then None
    else if a.reply.Threw? then Some(ErrorReconciled)
    else Some(AckReconciled)
  }

  /** The outcome `next` of the claim `r`, and the answer, say what was seen last and whether this call wrote. */
  predicate Told(r: Record, a: Answers, known: bool, wrote: bool, now: nat, next: Record, result: Result<Report, Error>)
    requires a.rereads != []
  {
    var s := LastSight(r, a, wrote);
    && SameIntent(r, next) && next.updatedAt == now
    && (if Wanted(r, s) then
          && next.state == (if wrote || (known && r.beforePublished != r.action.Publish?) then Succeeded else Noop)
          && next.failure == r.failure
          && next.reconciliation == (if CodeOf(r, a, known, wrote).Some? then CodeOf(r, a, known, wrote) else r.reconciliation)
          && result == Ok(Report(s.value, wrote, false))
        else if Untouched(r, s) then
          && next.state.Failed? && next.failure == Some(if wrote then FailedUnchanged else PreviousAttemptUnchanged)
          && next.reconciliation == r.reconciliation
          && result == Err(if wrote then ErrFailedUnchanged else RecoveryRequired)
        else
          && next.state.Ambiguous? && next.failure == Some(PublicationAmbiguous) && next.reconciliation == r.reconciliation
          && result == Err(ErrAmbiguous))
  }

  lemma ReplayTold(d: Disk, r: Record, a: Answers, now: nat, next: Record)
    requires a.before.Some? && a.rereads != [] && r.state.Claimed?
    requires Append(next) in ReconcileReplay(d, r, a.before.value, now).effects
    ensures SameIntent(r, next) && Told(r, a, true, false, now, next, ReconcileReplay(d, r, a.before.value, now).result)
  {
    hide RecordAccepted;
  }

  lemma AfterSendTold(d: Disk, sent: seq<Effect>, r: Record, a: Answers, now: nat, next: Record)
    requires a.rereads != [] && r.state.Claimed? && Append(next) !in sent
    requires Append(next) in AfterSend(d, sent, r, a, now).effects
    ensures SameIntent(r, next) && Told(r, a, false, true, now, next, AfterSend(d, sent, r, a, now).result)
  {
    hide RecordAccepted, Deciding;
  }

  /** Whatever outcome a call journals is what it saw, named after how it came about, and its answer says the same. */
  lemma OutcomeTellsTheTruth(d: Disk, key: nat, action: Action, target: nat, a: Answers, claimedAt: nat, now: nat, next: Record)
    requires a.rereads != []
    requires Append(next) in Execute(d, Some(key), action, target, false, a, claimedAt, now).effects
    ensures a.before.Some? && next.action == action && next.target == target
    ensures var o := Execute(d, Some(key), action, target, false, a, claimedAt, now);
            var r := ClaimOf(d, key, action, target, a.before.value, claimedAt);
            && r.state.Claimed? && Told(r, a, key in d.histories, Send(key) in o.effects, now, next, o.result)
            && (key !in d.histories ==> WriteClaim(r) in o.effects)
  {
    hide RecordAccepted, Told, ReconcileReplay, AfterSend, Desired, Finish;
    if key in d.histories {
      var r := Last(d, key);
      SettledIsSilent(d, r, a.before.value, now);
      ReplayTold(d, r, a, now, next);
      ReplaySendsNothing(d, r, a.before.value, now, key);
    } else {
      var r := FirstRecord(key, action, target, a.before.value, claimedAt);
      var claim := ClaimSteps(d, r);
      if Desired(action, a.before.value) {
        NoopTold(d, claim, r, a, now, next);
      } else {
        AfterSendTold(d, claim + [Send(key)], r, a, now, next);
        AfterSendKeeps(d, claim + [Send(key)], r, a, now);
        assert (claim + [Send(key)])[|claim|] == Send(key);
        assert WriteClaim(r) in claim + [Send(key)];
      }
    }
  }

  lemma SettledIsSilent(d: Disk, r: Record, current: Seen, now: nat)
    ensures !r.state.Claimed? ==> ReconcileReplay(d, r, current, now).effects == []
  {
  }

  lemma ReplaySendsNothing(d: Disk, r: Record, current: Seen, now: nat, key: nat)
    ensures Send(key) !in ReconcileReplay(d, r, current, now).effects
  {
    hide RecordAccepted;
  }

  lemma NoopTold(d: Disk, claim: seq<Effect>, r: Record, a: Answers, now: nat, next: Record)
    requires a.rereads != [] && a.before.Some? && r.state.Claimed? && r.failure.None? && r.reconciliation.None?
    requires r.beforePublished == a.before.value.published && r.beforeChanged == a.before.value.changed
    requires Desired(r.action, a.before.value) && claim == ClaimSteps(d, r)
    requires Append(next) in Finish(d, claim, r, Terminal(r, Noop, now, None, None), Ok(Report(a.before.value, false, false))).effects
    ensures var o := Finish(d, claim, r, Terminal(r, Noop, now, None, None), Ok(Report(a.before.value, false, false)));
            SameIntent(r, next) && Told(r, a, false, false, now, next, o.result) && Send(r.key) !in o.effects && WriteClaim(r) in o.effects
  {
    hide RecordAccepted;
    var o := Finish(d, claim, r, Terminal(r, Noop, now, None, None), Ok(Report(a.before.value, false, false)));
    assert o.effects[|claim| - 1] == WriteClaim(r);
  }

  lemma AfterSendKeeps(d: Disk, sent: seq<Effect>, r: Record, a: Answers, now: nat)
    requires a.rereads != []
    ensures sent <= AfterSend(d, sent, r, a, now).effects
  {
    hide RecordAccepted, Classify, Deciding, Terminal;
  }

  /**
   A non-dry success reports a sight of the wanted page, unchanged since the claim, changed by this call exactly when
   this call wrote; and the last record of its key says SUCCEEDED or NOOP.
   */
  lemma SuccessIsOnRecord(d: Disk, key: nat, action: Action, target: nat, a: Answers, claimedAt: nat, now: nat)
    requires a.rereads != [] && Execute(d, Some(key), action, target, false, a, claimedAt, now).result.Ok?
    ensures a.before.Some?
    ensures var o := Execute(d, Some(key), action, target, false, a, claimedAt, now);
            var r := ClaimOf(d, key, action, target, a.before.value, claimedAt);
            && Wanted(r, Some(o.result.value.seen)) && !o.result.value.dryRun
            && (o.result.value.stateChanged <==> Send(key) in o.effects)
            && (if o.effects == [] then Loadable(d, key) && (r.state.Succeeded? || r.state.Noop?)
                else exists next :: Append(next) in o.effects && (next.state.Succeeded? || next.state.Noop?))
  {
    var o := Execute(d, Some(key), action, target, false, a, claimedAt, now);
    if o.effects == [] {
      hide AfterSend, Finish;
    } else {
      var next := OkJournals(d, key, action, target, a, claimedAt, now);
      OutcomeTellsTheTruth(d, key, action, target, a, claimedAt, now, next);
      hide Execute;
    }
  }

  lemma OkJournals(d: Disk, key: nat, action: Action, target: nat, a: Answers, claimedAt: nat, now: nat) returns (next: Record)
    requires a.rereads != [] && Execute(d, Some(key), action, target, false, a, claimedAt, now).result.Ok?
    requires Execute(d, Some(key), action, target, false, a, claimedAt, now).effects != []
    ensures Append(next) in Execute(d, Some(key), action, target, false, a, claimedAt, now).effects
  {
    hide RecordAccepted, Classify, Deciding, Desired, Terminal;
    var o := Execute(d, Some(key), action, target, false, a, claimedAt, now);
    next := o.effects[|o.effects| - 1].record;
  }

  /** A call that records FAILED or AMBIGUOUS always fails. */
  lemma FailureIsReported(d: Disk, key: nat, action: Action, target: nat, a: Answers, claimedAt: nat, now: nat, next: Record)
    requires a.rereads != []
    requires Append(next) in Execute(d, Some(key), action, target, false, a, claimedAt, now).effects
    requires next.state.Failed? || next.state.Ambiguous?
    ensures Execute(d, Some(key), action, target, false, a, claimedAt, now).result.Err?
  {
    OutcomeTellsTheTruth(d, key, action, target, a, claimedAt, now, next);
    hide Execute, Deciding;
  }

  /** With a clock that does not go back, a call under a claimed key without an outcome journals one, whatever it sees. */
  lemma OpenClaimsAreSettled(d: Disk, key: nat, a: Answers, claimedAt: nat, now: nat)
    requires a.rereads != [] && Loadable(d, key) && Last(d, key).state.Claimed? && a.before.Some?
    requires Last(d, key).createdAt <= Last(d, key).updatedAt <= now
    ensures var r := Last(d, key);
            exists next :: Execute(d, Some(key), r.action, r.target, false, a, claimedAt, now).effects == [Append(next)]
  {
    var r := Last(d, key);
    var o := Execute(d, Some(key), r.action, r.target, false, a, claimedAt, now);
    var next := o.effects[0].record;
    assert o.effects == [Append(next)];
  }
}
