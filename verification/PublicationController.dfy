/** The publication controller as it runs: it updates the journal and the remote page one step at a time. */
module PublicationController {
  import opened Prelude
  import P = Publication

  function DoAll(w: P.World, es: seq<P.Effect>): P.World
    decreases |es|
  {
    if es == [] then w else P.Do(DoAll(w, es[..|es| - 1]), es[|es| - 1])
  }

  lemma DoSnoc(w: P.World, es: seq<P.Effect>, e: P.Effect)
    ensures DoAll(w, es + [e]) == P.Do(DoAll(w, es), e)
  {
    assert (es + [e])[..|es|] == es;
  }

  /** Every event is stored under its own key. */
  ghost predicate Filed(histories: map<nat, seq<P.Record>>) {
    forall key, k :: key in histories && 0 <= k < |histories[key]| ==> histories[key][k].key == key
  }

  /** Steps taken first, then the conclusion: the same list either way. */
  lemma FinishSplits(d: P.Disk, before: seq<P.Effect>, current: P.Record, r: P.Record, report: Result<P.Report, P.Error>)
    ensures P.Finish(d, before, current, r, report).effects == before + P.Finish(d, [], current, r, report).effects
  {
    hide P.RecordAccepted;
    assert [] + [P.Append(r)] == [P.Append(r)];
  }

  function ClaimSteps(bound: map<nat, bool>, r: P.Record): seq<P.Effect> {
    (if r.key in bound then [] else [P.BindKey(r.key)]) + [P.WriteClaim(r)]
  }

  lemma AfterSendSplits(d: P.Disk, before: seq<P.Effect>, r: P.Record, a: P.Answers, now: nat)
    requires a.rereads != []
    ensures P.AfterSend(d, before, r, a, now).effects == before + P.AfterSend(d, [], r, a, now).effects
    ensures P.AfterSend(d, before, r, a, now).result == P.AfterSend(d, [], r, a, now).result
  {
    hide P.RecordAccepted, P.Classify, P.Deciding, P.Terminal;
    forall next ensures [] + [P.Append(next)] == [P.Append(next)] {}
  }

  lemma TerminalKey(r: P.Record, state: P.Phase, now: nat, failure: Option<P.FailureCode>, code: Option<P.Reconciliation>)
    ensures P.Terminal(r, state, now, failure, code).key == r.key
  {
  }

  lemma DesiredIsSeen(action: P.Action, r: P.Record, value: Option<P.Seen>)
    requires P.Classify(action, r, value).IsDesired?
    ensures value.Some?
  {
  }

  class Controller {
    var histories: map<nat, seq<P.Record>>
    var littered: set<nat>
    var bound: map<nat, bool>
    ghost var sent: seq<nat>
    ghost var steps: seq<P.Effect>
    ghost const start: P.World

    constructor (d: P.Disk)
      requires Filed(d.histories)
      ensures Valid() && steps == [] && Store() == d && sent == []
    {
      histories, littered, bound := d.histories, d.littered, d.bound;
      sent, steps := [], [];
      start := P.World(d, []);
    }

    function Store(): P.Disk
      reads this
    {
      P.Disk(histories, littered, bound)
    }

    ghost function Now(): P.World
      reads this
    {
      P.World(Store(), sent)
    }

    /** The state is what the recorded steps make of the initial one. */
    ghost predicate Valid()
      reads this
    {
      Now() == DoAll(start, steps) && Filed(histories)
    }

    method BindKey(key: nat)
      requires Valid()
      modifies this`bound, this`steps
      ensures Valid() && steps == old(steps) + [P.BindKey(key)] && Now() == P.Do(old(Now()), P.BindKey(key))
    {
      DoSnoc(start, steps, P.BindKey(key));
      bound := bound[key := true];
      steps := steps + [P.BindKey(key)];
    }

    method WriteClaim(r: P.Record)
      requires Valid()
      modifies this`histories, this`steps
      ensures Valid() && steps == old(steps) + [P.WriteClaim(r)] && Now() == P.Do(old(Now()), P.WriteClaim(r))
      ensures r.key in histories
    {
      DoSnoc(start, steps, P.WriteClaim(r));
      histories := histories[r.key := [r]];
      steps := steps + [P.WriteClaim(r)];
    }

    method Send(key: nat)
      requires Valid()
      modifies this`sent, this`steps
      ensures Valid() && steps == old(steps) + [P.Send(key)] && Now() == P.Do(old(Now()), P.Send(key))
    {
      DoSnoc(start, steps, P.Send(key));
      sent := sent + [key];
      steps := steps + [P.Send(key)];
    }

    /** Appends one outcome to a claimed journal; anything else is refused. */
    method AppendPublicationAction(current: P.Record, r: P.Record) returns (accepted: bool)
      requires Valid() && r.key in histories
      modifies this`histories, this`steps
      ensures Valid() && accepted == (P.RecordAccepted(r) && current.updatedAt <= r.updatedAt)
      ensures accepted ==> steps == old(steps) + [P.Append(r)] && Now() == P.Do(old(Now()), P.Append(r))
      ensures !accepted ==> steps == old(steps) && Now() == old(Now())
    {
      accepted := P.RecordAccepted(r) && current.updatedAt <= r.updatedAt;
      if accepted {
        DoSnoc(start, steps, P.Append(r));
        histories := histories[r.key := histories[r.key] + [r]];
        steps := steps + [P.Append(r)];
      }
    }

    method Conclude(current: P.Record, r: P.Record, report: Result<P.Report, P.Error>, ghost d: P.Disk, ghost before: seq<P.Effect>)
      returns (result: Result<P.Report, P.Error>)
      requires Valid() && r.key in histories
      modifies this`histories, this`steps
      ensures Valid() && result == P.Finish(d, before, current, r, report).result
      ensures steps == old(steps) + P.Finish(d, [], current, r, report).effects
    {
      var accepted := AppendPublicationAction(current, r);
      if !accepted { return Err(P.AppendRefused); }
      assert [] + [P.Append(r)] == [P.Append(r)];
      return report;
    }

    method ReconcileReplay(r: P.Record, current: P.Seen, now: nat) returns (result: Result<P.Report, P.Error>)
      requires Valid() && r.key in histories
      modifies this`histories, this`steps
      ensures Valid() && result == P.ReconcileReplay(old(Store()), r, current, now).result
      ensures steps == old(steps) + P.ReconcileReplay(old(Store()), r, current, now).effects
    {
      hide P.Finish, P.RecordAccepted;
      ghost var d := Store();
      if r.state.Succeeded? || r.state.Noop? {
        if !P.Desired(r.action, current) || current.changed != r.beforeChanged { return Err(P.ReplayDrift); }
        return Ok(P.Report(current, false, false));
      }
      if r.state.Failed? || r.state.Ambiguous? { return Err(P.RecoveryRequired); }
      if P.Desired(r.action, current) && current.changed == r.beforeChanged {
        var already := if r.action.Publish? then r.beforePublished else !r.beforePublished;
        var completed := P.Terminal(r, if already then P.Noop else P.Succeeded, now, None, Some(P.ReplayReconciled));
        result := Conclude(r, completed, Ok(P.Report(current, false, false)), d, []);
      } else if current.published == r.beforePublished && current.changed == r.beforeChanged {
        var failed := P.Terminal(r, P.Failed, now, Some(P.PreviousAttemptUnchanged), None);
        result := Conclude(r, failed, Err(P.RecoveryRequired), d, []);
      } else {
        var ambiguous := P.Terminal(r, P.Ambiguous, now, Some(P.PublicationAmbiguous), None);
        result := Conclude(r, ambiguous, Err(P.ErrAmbiguous), d, []);
      }
    }

    /** Binds the key, then writes the claim. */
    method TakeClaim(r: P.Record)
      requires Valid()
      modifies this`histories, this`bound, this`steps
      ensures Valid() && r.key in histories && steps == old(steps) + ClaimSteps(old(bound), r)
    {
      if r.key !in bound { BindKey(r.key); }
      WriteClaim(r);
    }

    /** Rereads after the write and journals what the deciding reread showed. */
    method JournalReread(r: P.Record, a: P.Answers, now: nat, ghost d: P.Disk) returns (result: Result<P.Report, P.Error>)
      requires Valid() && r.key in histories && a.rereads != []
      modifies this`histories, this`steps
      ensures Valid() && result == P.AfterSend(d, [], r, a, now).result
      ensures steps == old(steps) + P.AfterSend(d, [], r, a, now).effects
    {
      hide P.Finish, P.Classify, P.Deciding, P.RecordAccepted, P.Terminal;
      var state, value, used := P.ReadAfterDispatch(r.action, r, a.rereads);
      if state.IsDesired? {
        assert value.Some? by { DesiredIsSeen(r.action, r, value); }
        var code := if a.reply.Threw? then Some(P.ErrorReconciled)
                    else if a.reply.Unacknowledged? then Some(P.AckReconciled) else None;
        TerminalKey(r, P.Succeeded, now, None, code);
        result := Conclude(r, P.Terminal(r, P.Succeeded, now, None, code), Ok(P.Report(value.value, true, false)), d, []);
      } else if state.IsUnchanged? {
        TerminalKey(r, P.Failed, now, Some(P.FailedUnchanged), None);
        result := Conclude(r, P.Terminal(r, P.Failed, now, Some(P.FailedUnchanged), None), Err(P.ErrFailedUnchanged), d, []);
      } else {
        TerminalKey(r, P.Ambiguous, now, Some(P.PublicationAmbiguous), None);
        result := Conclude(r, P.Terminal(r, P.Ambiguous, now, Some(P.PublicationAmbiguous), None), Err(P.ErrAmbiguous), d, []);
      }
    }

    method FirstAttempt(key: nat, action: P.Action, target: nat, before: P.Seen, a: P.Answers, claimedAt: nat, now: nat)
      returns (result: Result<P.Report, P.Error>)
      requires Valid() && a.rereads != [] && a.before == Some(before) && key !in histories
      requires key in bound ==> bound[key]
      modifies this
      ensures Valid()
      ensures var o := P.Execute(old(Store()), Some(key), action, target, false, a, claimedAt, now);
              result == o.result && steps == old(steps) + o.effects
    {
      hide P.Finish, P.AfterSend, P.RecordAccepted, P.Do, P.Terminal, P.Desired;
      ghost var d, s0 := Store(), steps;
      var r := P.FirstRecord(key, action, target, before, claimedAt);
      TakeClaim(r);
      ghost var claimed := ClaimSteps(d.bound, r);
      if P.Desired(action, before) {
        FinishSplits(d, claimed, r, P.Terminal(r, P.Noop, now, None, None), Ok(P.Report(before, false, false)));
        TerminalKey(r, P.Noop, now, None, None);
        result := Conclude(r, P.Terminal(r, P.Noop, now, None, None), Ok(P.Report(before, false, false)), d, claimed);
        return;
      }
      Send(key);
      AfterSendSplits(d, claimed + [P.Send(key)], r, a, now);
      result := JournalReread(r, a, now, d);
      assert steps == s0 + (claimed + [P.Send(key)] + P.AfterSend(d, [], r, a, now).effects);
    }

    /** One publication call: at most one write, then bounded rereads, then one terminal event. */
    method Execute(key: Option<nat>, action: P.Action, target: nat, dryRun: bool, a: P.Answers, claimedAt: nat, now: nat)
      returns (result: Result<P.Report, P.Error>)
      requires Valid() && a.rereads != []
      modifies this
      ensures Valid()
      ensures var o := P.Execute(old(Store()), key, action, target, dryRun, a, claimedAt, now);
              result == o.result && steps == old(steps) + o.effects
    {
      hide P.Finish, P.ReconcileReplay, P.AfterSend, P.Do, P.Desired;
      if dryRun {
        if a.before.None? { return Err(P.ReadFailed); }
        return Ok(P.Report(a.before.value, false, true));
      }
      if key.None? { return Err(P.KeyRequired); }
      if a.before.None? { return Err(P.ReadFailed); }
      if key.value in histories {
        if histories[key.value] == [] || key.value in littered { return Err(P.StateCorrupt); }
        var existing := histories[key.value][|histories[key.value]| - 1];
        if existing.action != action || existing.target != target { return Err(P.IdempotencyConflict); }
        result := ReconcileReplay(existing, a.before.value, now);
        return;
      }
      if key.value in bound && !bound[key.value] { return Err(P.IdempotencyConflict); }
      result := FirstAttempt(key.value, action, target, a.before.value, a, claimedAt, now);
    }
  }
}
