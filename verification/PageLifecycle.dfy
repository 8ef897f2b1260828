/**
 The page lifecycle controller: callers interleave at the one await inside `execute`,
 so each call is a synchronous start and, for the caller that started the transaction,
 a settlement.
 */
module PageLifecycle {
  import opened Prelude

  datatype Page = Page(project: nat, page: nat)

  /** What the transport reports about the source page before and after. */
  datatype Evidence = Evidence(
    source: Page, activePages: seq<nat>, order: seq<nat>, records: seq<nat>, published: bool, changed: Option<nat>)

  datatype Restoration = Restoration(
    evidence: Evidence, temporary: nat, temporaryAbsent: bool, orderRestored: bool, sourceUnchanged: bool, exact: bool)

  datatype Report = Report(baseline: Evidence, restored: Restoration)

  predicate Unique(ids: seq<nat>) {
    forall j, k :: 0 <= j < k < |ids| ==> ids[j] != ids[k]
  }

  predicate ListsUnique(e: Evidence) {
    Unique(e.activePages) && Unique(e.order) && Unique(e.records)
  }

  /** The transaction proved that the page is exactly as before and that its temporary child is gone. */
  predicate Verified(target: Page, r: Report) {
    var b := r.baseline;
    var a := r.restored.evidence;
    && b.source == target && a.source == target && ListsUnique(b) && ListsUnique(a)
    && target.page in b.activePages && target.page in b.order
    && r.restored.temporary != target.page
    && r.restored.temporary !in b.activePages && r.restored.temporary !in b.order && r.restored.temporary !in a.activePages
    && a.activePages == b.activePages && a.order == b.order && a.records == b.records
    && a.published == b.published && a.changed == b.changed
    && r.restored.temporaryAbsent && r.restored.orderRestored && r.restored.sourceUnchanged && r.restored.exact
  }

  datatype State = State(
    completed: map<nat, (Page, Report)>, inFlight: map<nat, Page>, targets: map<Page, nat>, blocked: map<nat, Page>,
    sent: seq<(nat, Page)>)

  const INIT := State(map[], map[], map[], map[], [])

  datatype Started = DryRun | Replayed(report: Report) | Joined | RetryBlocked | TargetMismatch | TargetBusy | Dispatched

  /** The synchronous part of a call, up to the transaction. */
  function Start(s: State, key: nat, target: Page, dryRun: bool): (State, Started) {
    if dryRun then (s, DryRun)
    else if key in s.completed then
      (s, if s.completed[key].0 == target then Replayed(s.completed[key].1) else TargetMismatch)
    else if key in s.inFlight then (s, if s.inFlight[key] == target then Joined else TargetMismatch)
    else if key in s.blocked then (s, if s.blocked[key] == target then RetryBlocked else TargetMismatch)
    else if target in s.targets && s.targets[target] != key then (s, TargetBusy)
    else
      (s.(targets := s.targets[target := key], inFlight := s.inFlight[key := target], sent := s.sent + [(key, target)]),
       Dispatched)
  }

  /** The transaction of `key` ended, with a report or with an error. */
  function Settle(s: State, key: nat, report: Option<Report>): State
    requires key in s.inFlight
  {
    var target := s.inFlight[key];
    var settled :=
      if report.Some? && Verified(target, report.value)
      then s.(completed := s.completed[key := (target, report.value)])
      else s.(blocked := s.blocked[key := target]);
    settled.(inFlight := s.inFlight - {key},
    targets := if target in s.targets && s.targets[target] == key then s.targets - {target} else s.targets)
  }

  datatype Event = Call(key: nat, target: Page, dryRun: bool) | Ended(key: nat, report: Option<Report>)

  function Step(s: State, e: Event): State {
    match e
    case Call(key, target, dryRun) => Start(s, key, target, dryRun).0
    case Ended(key, report) => if key in s.inFlight then Settle(s, key, report) else s
  }

  function Run(s: State, events: seq<Event>): State
    decreases |events|
  {
    if events == [] then s else Step(Run(s, events[..|events| - 1]), events[|events| - 1])
  }

  // ----- Invariant -----

  predicate Known(s: State, key: nat) {
    key in s.completed || key in s.inFlight || key in s.blocked
  }

  ghost predicate Inv(s: State) {
    && s.completed.Keys !! s.inFlight.Keys && s.completed.Keys !! s.blocked.Keys && s.inFlight.Keys !! s.blocked.Keys
    && (forall k :: 0 <= k < |s.sent| ==> Known(s, s.sent[k].0))
    && (forall j, k :: 0 <= j < k < |s.sent| ==> s.sent[j].0 != s.sent[k].0)
    && (forall key :: key in s.inFlight ==> s.inFlight[key] in s.targets && s.targets[s.inFlight[key]] == key)
    && (forall target :: target in s.targets ==> s.targets[target] in s.inFlight && s.inFlight[s.targets[target]] == target)
    && (forall key :: key in s.completed ==> Verified(s.completed[key].0, s.completed[key].1))
  }

  lemma StartKeeps(s: State, key: nat, target: Page, dryRun: bool)
    requires Inv(s)
    ensures Inv(Start(s, key, target, dryRun).0)
  {
    hide Verified;
    var (t, started) := Start(s, key, target, dryRun);
    if started.Dispatched? {
      assert target !in s.targets;
      forall k | 0 <= k < |s.sent| ensures s.sent[k].0 != key && Known(t, s.sent[k].0) { assert Known(s, s.sent[k].0); }
      assert Known(t, key);
    }
  }

  lemma SettleKeeps(s: State, key: nat, report: Option<Report>)
    requires Inv(s) && key in s.inFlight
    ensures Inv(Settle(s, key, report))
  {
    hide Verified;
    var t := Settle(s, key, report);
    forall k | 0 <= k < |s.sent| ensures Known(t, s.sent[k].0) { assert Known(s, s.sent[k].0); }
  }

  lemma {:induction false} ReachableInv(events: seq<Event>)
    ensures Inv(Run(INIT, events))
    decreases |events|
  {
    hide Inv, Step;
    if events == [] {
      InitInv();
    } else {
      ReachableInv(events[..|events| - 1]);
      StepKeeps(Run(INIT, events[..|events| - 1]), events[|events| - 1]);
    }
  }

  lemma InitInv()
    ensures Inv(INIT)
  {
  }

  lemma StepKeeps(s: State, e: Event)
    requires Inv(s)
    ensures Inv(Step(s, e))
  {
    hide Inv;
    if e.Call? {
      StartKeeps(s, e.key, e.target, e.dryRun);
    } else if e.key in s.inFlight {
      SettleKeeps(s, e.key, e.report);
    }
  }

  /** Over every interleaving each key reaches the transport at most once. */
  lemma OneTransactionPerKey(events: seq<Event>, j: nat, k: nat)
    requires j < |Run(INIT, events).sent| && k < |Run(INIT, events).sent|
    requires Run(INIT, events).sent[j].0 == Run(INIT, events).sent[k].0
    ensures j == k
  {
    hide Run, Verified, Known;
    ReachableInv(events);
  }

  /** Each source page has at most one transaction in flight. */
  lemma OneTransactionPerPage(events: seq<Event>, a: nat, b: nat)
    requires a in Run(INIT, events).inFlight && b in Run(INIT, events).inFlight
    requires Run(INIT, events).inFlight[a] == Run(INIT, events).inFlight[b]
    ensures a == b
  {
    hide Run, Verified, Known;
    ReachableInv(events);
  }

  /** A key that failed is blocked for good, on the same page, and is neither sent nor replayed again. */
  lemma {:induction false} FailedKeysStayBlocked(first: seq<Event>, more: seq<Event>, key: nat)
    requires key in Run(INIT, first).blocked
    ensures var s, t := Run(INIT, first), Run(INIT, first + more);
            && key in t.blocked && t.blocked[key] == s.blocked[key] && key !in t.completed && key !in t.inFlight
            && s.sent <= t.sent && (forall k :: |s.sent| <= k < |t.sent| ==> t.sent[k].0 != key)
    decreases |more|
  {
    hide Run, Step, Verified, Known;
    if more == [] {
      assert first + more == first;
      ReachableInv(first);
    } else {
      var front := more[..|more| - 1];
      FailedKeysStayBlocked(first, front, key);
      ReachableInv(first + front);
      assert (first + more)[..|first + more| - 1] == first + front;
      RunLast(first + more);
      BlockedStep(Run(INIT, first + front), more[|more| - 1], key);
    }
  }

  lemma RunLast(events: seq<Event>)
    requires events != []
    ensures Run(INIT, events) == Step(Run(INIT, events[..|events| - 1]), events[|events| - 1])
  {
  }

  lemma BlockedStep(s: State, e: Event, key: nat)
    requires Inv(s) && key in s.blocked
    ensures var t := Step(s, e);
            && key in t.blocked && t.blocked[key] == s.blocked[key] && key !in t.completed && key !in t.inFlight
            && (t.sent == s.sent || (|t.sent| == |s.sent| + 1 && s.sent <= t.sent && t.sent[|s.sent|].0 != key))
  {
    hide Verified, Known;
  }

  lemma ReplaysAreVerified(events: seq<Event>, key: nat, target: Page, dryRun: bool)
    requires Start(Run(INIT, events), key, target, dryRun).1.Replayed?
    ensures Verified(target, Start(Run(INIT, events), key, target, dryRun).1.report)
  {
    hide Run, Verified, Known;
    ReachableInv(events);
  }

  // ----- What a call is answered -----

  /** The page on which a key was used, if it was. */
  function UsedOn(s: State, key: nat): Option<Page> {
    if key in s.completed then Some(s.completed[key].0)
    else if key in s.inFlight then Some(s.inFlight[key])
    else if key in s.blocked then Some(s.blocked[key])
    else None
  }

  /** Over every run: a known key belongs to its page, and on it is answered by how far its one transaction has come. */
  lemma KnownKeysAnswer(events: seq<Event>, key: nat, target: Page)
    requires Known(Run(INIT, events), key)
    ensures var s := Run(INIT, events);
            && Start(s, key, target, false).0 == s && UsedOn(s, key).Some?
            && (UsedOn(s, key).value != target <==> Start(s, key, target, false).1.TargetMismatch?)
            && (UsedOn(s, key).value == target ==>
                  && (key in s.completed <==> Start(s, key, target, false).1.Replayed?)
                  && (key in s.completed ==> Start(s, key, target, false).1.report == s.completed[key].1)
                  && (key in s.inFlight <==> Start(s, key, target, false).1.Joined?)
                  && (key in s.blocked <==> Start(s, key, target, false).1.RetryBlocked?))
  {
    hide Run, Verified;
    ReachableInv(events);
    var s := Run(INIT, events);
    assert key in s.completed ==> key !in s.inFlight && key !in s.blocked;
    assert key in s.inFlight ==> key !in s.blocked;
  }

  /** Over every run: a new key starts its transaction exactly when no other key has one on the page; a dry run does nothing. */
  lemma NewKeysStart(events: seq<Event>, key: nat, target: Page)
    requires !Known(Run(INIT, events), key)
    ensures var s := Run(INIT, events);
            var (t, started) := Start(s, key, target, false);
            if target in s.targets then started.TargetBusy? && t == s
            else
              && started.Dispatched? && t.sent == s.sent + [(key, target)]
              && t.inFlight == s.inFlight[key := target] && t.targets == s.targets[target := key]
              && t.completed == s.completed && t.blocked == s.blocked
    ensures Start(Run(INIT, events), key, target, true) == (Run(INIT, events), DryRun)
  {
    hide Run, Verified;
    ReachableInv(events);
  }

  /** A transaction that ends is completed exactly when its report proves the page restored, else blocked; and its page is free. */
  lemma SettlesExactly(events: seq<Event>, key: nat, report: Option<Report>)
    requires key in Run(INIT, events).inFlight
    ensures var s := Run(INIT, events);
            var t := Step(s, Ended(key, report));
            var target := s.inFlight[key];
            && t.inFlight == s.inFlight - {key} && t.targets == s.targets - {target} && t.sent == s.sent
            && (if report.Some? && Verified(target, report.value)
                then t.completed == s.completed[key := (target, report.value)] && t.blocked == s.blocked
                else t.blocked == s.blocked[key := target] && t.completed == s.completed)
  {
    hide Run, Verified, Known;
    ReachableInv(events);
  }

  // ----- The controller object -----

  class PageLifecycleController {
    var completed: map<nat, (Page, Report)>
    var inFlight: map<nat, Page>
    var targetInFlight: map<Page, nat>
    var retryBlocked: map<nat, Page>
    ghost var sent: seq<(nat, Page)>

    constructor ()
      ensures Now() == INIT
    {
      completed, inFlight, targetInFlight, retryBlocked, sent := map[], map[], map[], map[], [];
    }

    ghost function Now(): State
      reads this
    {
      State(completed, inFlight, targetInFlight, retryBlocked, sent)
    }

    method Begin(key: nat, target: Page, dryRun: bool) returns (started: Started)
      modifies this
      ensures Now() == Start(old(Now()), key, target, dryRun).0
      ensures started == Start(old(Now()), key, target, dryRun).1
    {
      if dryRun { return DryRun; }
      if key in completed {
        if completed[key].0 != target { return TargetMismatch; }
        return Replayed(completed[key].1);
      }
      if key in inFlight {
        if inFlight[key] != target { return TargetMismatch; }
        return Joined;
      }
      if key in retryBlocked {
        if retryBlocked[key] != target { return TargetMismatch; }
        return RetryBlocked;
      }
      if target in targetInFlight && targetInFlight[target] != key { return TargetBusy; }
      targetInFlight := targetInFlight[target := key];
      inFlight := inFlight[key := target];
      sent := sent + [(key, target)];
      return Dispatched;
    }

    method Finish(key: nat, report: Option<Report>)
      requires key in inFlight
      modifies this
      ensures Now() == Settle(old(Now()), key, report)
    {
      hide Verified;
      var target := inFlight[key];
      if report.Some? && Verified(target, report.value) {
        completed := completed[key := (target, report.value)];
      } else {
        retryBlocked := retryBlocked[key := target];
      }
      inFlight := inFlight - {key};
      if target in targetInFlight && targetInFlight[target] == key {
        targetInFlight := targetInFlight - {target};
      }
    }
  }
}
