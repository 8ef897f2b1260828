/** Publication over any number of processes, crashes and edits by others. */
module PublicationRuns {
  import opened Prelude
  import opened Publication

  // ----- One call takes only safe steps -----

  lemma FinishSafe(w: World, current: Record, r: Record)
    requires WorldInv(w) && Loadable(w.disk, current.key) && Last(w.disk, current.key) == current
    requires SameIntent(current, r) && current.state.Claimed? && !r.state.Claimed?
    ensures forall result :: Safe(w, Finish(w.disk, [], current, r, result).effects)
  {
    if RecordAccepted(r) && current.updatedAt <= r.updatedAt {
      assert [] + [Append(r)] == [Append(r)];
      assert [Append(r)][1..] == [];
      assert EffectSafe(w, Append(r));
    }
  }

  lemma ReplaySafe(w: World, key: nat, current: Seen, now: nat)
    requires WorldInv(w) && Loadable(w.disk, key)
    ensures Safe(w, ReconcileReplay(w.disk, Last(w.disk, key), current, now).effects)
  {
    hide WorldInv, Safe, Finish, Classify;
    assert Safe(w, []) by { NothingSafe(w); }
    var r := Last(w.disk, key);
    assert r.key == key by { LastKey(w, key); }
    if r.state.Claimed? {
      FinishSafe(w, r, Terminal(r, Noop, now, None, Some(ReplayReconciled)));
      FinishSafe(w, r, Terminal(r, Succeeded, now, None, Some(ReplayReconciled)));
      FinishSafe(w, r, Terminal(r, Failed, now, Some(PreviousAttemptUnchanged), None));
      FinishSafe(w, r, Terminal(r, Ambiguous, now, Some(PublicationAmbiguous), None));
    }
  }

  lemma NothingSafe(w: World)
    ensures Safe(w, [])
  {
  }

  lemma LastKey(w: World, key: nat)
    requires WorldInv(w) && Loadable(w.disk, key)
    ensures Last(w.disk, key).key == key
  {
    assert HistoryFine(w.disk.histories[key], key);
  }

  function ClaimSteps(d: Disk, r: Record): seq<Effect> {
    (if r.key in d.bound then [] else [BindKey(r.key)]) + [WriteClaim(r)]
  }

  function AfterClaim(w: World, r: Record): World {
    var bound := if r.key in w.disk.bound then w else Do(w, BindKey(r.key));
    Do(bound, WriteClaim(r))
  }

  lemma ClaimSafe(w: World, r: Record, rest: seq<Effect>)
    requires WorldInv(w) && r.key !in w.disk.histories && (r.key in w.disk.bound ==> w.disk.bound[r.key])
    requires r.state.Claimed? && RecordAccepted(r) && Safe(AfterClaim(w, r), rest)
    ensures Safe(w, ClaimSteps(w.disk, r) + rest)
  {
    hide WorldInv, Safe;
    if r.key in w.disk.bound {
      SafeCons(w, WriteClaim(r), rest);
      assert ClaimSteps(w.disk, r) + rest == [WriteClaim(r)] + rest;
    } else {
      SafeCons(Do(w, BindKey(r.key)), WriteClaim(r), rest);
      SafeCons(w, BindKey(r.key), [WriteClaim(r)] + rest);
      assert ClaimSteps(w.disk, r) + rest == [BindKey(r.key)] + ([WriteClaim(r)] + rest);
    }
  }

  lemma ClaimedWorld(w: World, r: Record)
    requires WorldInv(w) && r.key !in w.disk.histories && r.key !in w.disk.littered
    requires (r.key in w.disk.bound ==> w.disk.bound[r.key]) && r.state.Claimed? && RecordAccepted(r)
    ensures var c := AfterClaim(w, r);
            WorldInv(c) && Loadable(c.disk, r.key) && Last(c.disk, r.key) == r && r.key !in c.sent
  {
    var bound := if r.key in w.disk.bound then w else Do(w, BindKey(r.key));
    if r.key !in w.disk.bound { StepKeeps(w, BindKey(r.key)); }
    StepKeeps(bound, WriteClaim(r));
    forall k | 0 <= k < |w.sent| ensures w.sent[k] != r.key {}
  }

  /** The tail of a first call, from the claim on: perhaps one write, perhaps one outcome. */
  lemma TailSafe(c: World, r: Record, write: bool, next: Record, result: Result<Report, Error>)
    requires WorldInv(c) && Loadable(c.disk, r.key) && Last(c.disk, r.key) == r && r.key !in c.sent
    requires r.state.Claimed? && SameIntent(r, next) && !next.state.Claimed?
    ensures var send := if write then [Send(r.key)] else [];
            Safe(c, Finish(c.disk, send, r, next, result).effects)
  {
    hide WorldInv;
    NothingSafe(c);
    NothingSafe(Do(c, Send(r.key)));
    SafeCons(c, Send(r.key), []);
    if RecordAccepted(next) && r.updatedAt <= next.updatedAt {
      SafeCons(c, Append(next), []) by { NothingSafe(Do(c, Append(next))); }
      SafeCons(Do(c, Send(r.key)), Append(next), []) by { NothingSafe(Do(Do(c, Send(r.key)), Append(next))); }
      SafeCons(c, Send(r.key), [Append(next)] + []);
      assert [Send(r.key)] + [Append(next)] == [Send(r.key)] + ([Append(next)] + []);
      assert [] + [Append(next)] == [Append(next)] + [];
    }
    assert [Send(r.key)] + [] == [Send(r.key)];
  }

  lemma FirstSafe(w: World, r: Record, write: bool, next: Record, result: Result<Report, Error>)
    requires WorldInv(w) && r.key !in w.disk.histories && r.key !in w.disk.littered
    requires (r.key in w.disk.bound ==> w.disk.bound[r.key]) && r.state.Claimed? && RecordAccepted(r)
    requires SameIntent(r, next) && !next.state.Claimed?
    ensures var send := if write then [Send(r.key)] else [];
            Safe(w, Finish(w.disk, ClaimSteps(w.disk, r) + send, r, next, result).effects)
  {
    hide WorldInv, SameIntent, Safe, AfterClaim, ClaimSteps;
    var send := if write then [Send(r.key)] else [];
    var c := AfterClaim(w, r);
    ClaimedWorld(w, r);
    TailSafe(c, r, write, next, result);
    var tail := Finish(c.disk, send, r, next, result).effects;
    ClaimSafe(w, r, tail);
    assert Finish(w.disk, ClaimSteps(w.disk, r) + send, r, next, result).effects == ClaimSteps(w.disk, r) + tail;
  }

  /** Every call takes only safe steps. */
  lemma ExecuteSafe(w: World, key: Option<nat>, action: Action, target: nat, dryRun: bool, a: Answers, claimedAt: nat, now: nat)
    requires WorldInv(w) && w.disk.littered <= w.disk.histories.Keys && a.rereads != []
    ensures Safe(w, Execute(w.disk, key, action, target, dryRun, a, claimedAt, now).effects)
  {
    hide WorldInv, Safe, Finish, ReconcileReplay, Classify, Deciding, Desired, Terminal;
    NothingSafe(w);
    if !dryRun && key.Some? && a.before.Some? {
      if key.value in w.disk.histories {
        if Loadable(w.disk, key.value) { ReplaySafe(w, key.value, a.before.value, now); }
      } else if key.value in w.disk.bound ==> w.disk.bound[key.value] {
        var r := FirstRecord(key.value, action, target, a.before.value, claimedAt);
        var noop := Terminal(r, Noop, now, None, None);
        TerminalKeepsIntent(r, Noop, now, None, None);
        FirstSafe(w, r, false, noop, Ok(Report(a.before.value, false, false)));
        assert ClaimSteps(w.disk, r) + [] == ClaimSteps(w.disk, r);
        AfterSendSafe(w, r, a, now);
      }
    }
  }

  lemma TerminalKeepsIntent(r: Record, state: Phase, now: nat, failure: Option<FailureCode>, code: Option<Reconciliation>)
    ensures SameIntent(r, Terminal(r, state, now, failure, code)) && Terminal(r, state, now, failure, code).state == state
  {
  }

  lemma AfterSendSafe(w: World, r: Record, a: Answers, now: nat)
    requires WorldInv(w) && r.key !in w.disk.histories && r.key !in w.disk.littered
    requires (r.key in w.disk.bound ==> w.disk.bound[r.key]) && r.state.Claimed? && RecordAccepted(r) && a.rereads != []
    ensures Safe(w, AfterSend(w.disk, ClaimSteps(w.disk, r) + [Send(r.key)], r, a, now).effects)
  {
    hide WorldInv, Safe, Finish, Deciding, Terminal, SameIntent, ClaimSteps, Desired;
    var after := a.rereads[Deciding(r.action, r, a.rereads)];
    match Classify(r.action, r, after)
    case IsDesired =>
      var code := if a.reply.Threw? then Some(ErrorReconciled) else if a.reply.Unacknowledged? then Some(AckReconciled) else None;
      TerminalKeepsIntent(r, Succeeded, now, None, code);
      FirstSafe(w, r, true, Terminal(r, Succeeded, now, None, code), Ok(Report(after.value, true, false)));
    case IsUnchanged =>
      TerminalKeepsIntent(r, Failed, now, Some(FailedUnchanged), None);
      FirstSafe(w, r, true, Terminal(r, Failed, now, Some(FailedUnchanged), None), Err(ErrFailedUnchanged));
    case IsAmbiguous =>
      TerminalKeepsIntent(r, Ambiguous, now, Some(PublicationAmbiguous), None);
      FirstSafe(w, r, true, Terminal(r, Ambiguous, now, Some(PublicationAmbiguous), None), Err(ErrAmbiguous));
  }

  // ----- What an outcome says -----

  /**
   SUCCEEDED is journaled only on sight of the wanted state with an unchanged editor digest: by the
   deciding reread of the call that wrote, or by the first read of a replay.
   */
  lemma SuccessWasSeen(d: Disk, key: nat, action: Action, target: nat, a: Answers, claimedAt: nat, now: nat, r: Record)
    requires a.rereads != []
    requires Append(r) in Execute(d, Some(key), action, target, false, a, claimedAt, now).effects && r.state.Succeeded?
    ensures exists s ::
              && (s == a.before || s == a.rereads[Deciding(r.action, r, a.rereads)])
              && s.Some? && Desired(r.action, s.value) && s.value.changed == r.beforeChanged
  {
    hide Desired;
    var first := a.before;
    if key in d.histories {
      assert first.Some? && Desired(r.action, first.value) && first.value.changed == r.beforeChanged;
    } else {
      var claim := FirstRecord(key, action, target, a.before.value, claimedAt);
      ClassifyReads(action, claim, r, a.rereads);
      var s := a.rereads[Deciding(r.action, r, a.rereads)];
      assert s.Some? && Desired(r.action, s.value) && s.value.changed == r.beforeChanged;
    }
  }

  lemma {:induction false} ClassifyReads(action: Action, a: Record, b: Record, rereads: seq<Option<Seen>>)
    requires rereads != [] && a.beforePublished == b.beforePublished && a.beforeChanged == b.beforeChanged
    ensures Deciding(action, a, rereads) == Deciding(action, b, rereads)
  {
    if |rereads| > 1 { ClassifyReads(action, a, b, rereads[1..]); }
  }

  /** A call writes exactly when its key is new, may be bound, and the page is not in the wanted state yet. */
  lemma WritesExactly(d: Disk, key: Option<nat>, action: Action, target: nat, dryRun: bool, a: Answers,
                      claimedAt: nat, now: nat, sent: nat)
    requires a.rereads != []
    ensures Send(sent) in Execute(d, key, action, target, dryRun, a, claimedAt, now).effects <==>
              && !dryRun && key == Some(sent) && a.before.Some? && sent !in d.histories
              && (sent in d.bound ==> d.bound[sent]) && !Desired(action, a.before.value)
  {
    hide Classify, Deciding, Terminal, RecordAccepted, Desired;
  }

  /** With a clock that does not go back, a call that claimed its key always journals an outcome. */
  lemma ClaimedCallsFinish(d: Disk, key: nat, action: Action, target: nat, a: Answers, claimedAt: nat, now: nat)
    requires a.rereads != [] && key !in d.histories && claimedAt <= now
    ensures var o := Execute(d, Some(key), action, target, false, a, claimedAt, now);
            o.effects != [] ==> o.result != Err(AppendRefused) && o.effects[|o.effects| - 1].Append?
                                && o.effects[|o.effects| - 1].record.key == key
  {
    hide Classify, Deciding, Desired;
  }

  // ----- Runs -----

  datatype Lock = Free | Held | Stale

  datatype State = State(world: World, lock: Lock, pending: seq<Effect>)

  datatype Cut = Between | BeforeLink | AfterLink

  datatype Event =
    | Enter(key: Option<nat>, action: Action, target: nat, dryRun: bool, answers: Answers, claimedAt: nat, now: nat)
    | BindElsewhere(other: nat)
    | Advance
    | Leave
    | Crash(cut: Cut)
    | ClearLock

  const INIT := State(World(Disk(map[], {}, map[]), []), Free, [])

  function Litter(d: Disk, e: Effect, cut: Cut): Disk {
    if cut.Between? || !(e.WriteClaim? || e.Append?) then d
    else
      var torn := d.(littered := d.littered + {e.record.key});
      if cut.AfterLink? then Do(World(torn, []), e).disk
      else if e.WriteClaim? then torn.(histories := torn.histories[e.record.key := []])
      else torn
  }

  /** Processes share the lock; a crash leaves it behind until an operator clears it. */
  function Step(s: State, e: Event): State {
    match e
    case Enter(key, action, target, dryRun, a, claimedAt, now) =>
      if s.lock.Free? && a.rereads != [] then
        s.(lock := Held, pending := Execute(s.world.disk, key, action, target, dryRun, a, claimedAt, now).effects)
      else s
    case BindElsewhere(other) =>
      if s.lock.Free? && other !in s.world.disk.bound then
        s.(world := s.world.(disk := s.world.disk.(bound := s.world.disk.bound[other := false]))) else s
    case Advance =>
      if s.lock.Held? && s.pending != [] then s.(world := Do(s.world, s.pending[0]), pending := s.pending[1..]) else s
    case Leave => if s.lock.Held? && s.pending == [] then s.(lock := Free) else s
    case Crash(cut) =>
      if s.lock.Held? then
        State(if s.pending == [] then s.world else s.world.(disk := Litter(s.world.disk, s.pending[0], cut)), Stale, [])
      else s
    case ClearLock => if s.lock.Stale? then s.(lock := Free) else s
  }

  function Run(s: State, events: seq<Event>): State
    decreases |events|
  {
    if events == [] then s else Step(Run(s, events[..|events| - 1]), events[|events| - 1])
  }

  ghost predicate Inv(s: State) {
    && WorldInv(s.world) && s.world.disk.littered <= s.world.disk.histories.Keys
    && Safe(s.world, s.pending)
    && (s.pending != [] ==> s.lock.Held?)
  }

  lemma SafeHead(w: World, es: seq<Effect>)
    requires Safe(w, es) && es != []
    ensures EffectSafe(w, es[0]) && Safe(Do(w, es[0]), es[1..])
  {
  }

  lemma DoKeepsJournals(w: World, e: Effect)
    requires w.disk.littered <= w.disk.histories.Keys
    ensures Do(w, e).disk.littered <= Do(w, e).disk.histories.Keys
  {
  }

  lemma LitterKeeps(w: World, e: Effect, cut: Cut)
    requires WorldInv(w) && EffectSafe(w, e) && w.disk.littered <= w.disk.histories.Keys
    ensures WorldInv(w.(disk := Litter(w.disk, e, cut)))
    ensures Litter(w.disk, e, cut).littered <= Litter(w.disk, e, cut).histories.Keys
  {
    hide RecordAccepted, SameIntent;
    StepKeeps(w, e);
    var d := Litter(w.disk, e, cut);
    if e.WriteClaim? && cut.BeforeLink? {
      assert HistoryFine([], e.record.key);
    }
  }

  lemma BindElsewhereKeeps(w: World, other: nat)
    requires WorldInv(w) && other !in w.disk.bound
    ensures WorldInv(w.(disk := w.disk.(bound := w.disk.bound[other := false])))
  {
    hide HistoryFine;
  }

  lemma EventKeeps(s: State, e: Event)
    requires Inv(s)
    ensures Inv(Step(s, e))
  {
    hide WorldInv, Safe, EffectSafe, Execute, Do, Litter;
    NothingSafe(Step(s, e).world);
    if e.Enter? {
      if s.lock.Free? && e.answers.rereads != [] {
        ExecuteSafe(s.world, e.key, e.action, e.target, e.dryRun, e.answers, e.claimedAt, e.now);
      }
    } else if e.BindElsewhere? {
      if s.lock.Free? && e.other !in s.world.disk.bound { BindElsewhereKeeps(s.world, e.other); }
    } else if s.pending != [] {
      SafeHead(s.world, s.pending);
      StepKeeps(s.world, s.pending[0]);
      DoKeepsJournals(s.world, s.pending[0]);
      if e.Crash? { LitterKeeps(s.world, s.pending[0], e.cut); }
    }
  }

  lemma {:induction false} ReachableInv(events: seq<Event>)
    ensures Inv(Run(INIT, events))
    decreases |events|
  {
    hide Inv, Step;
    if events == [] {
      assert Inv(INIT) by { InitInv(); }
    } else {
      ReachableInv(events[..|events| - 1]);
      EventKeeps(Run(INIT, events[..|events| - 1]), events[|events| - 1]);
    }
  }

  lemma InitInv()
    ensures Inv(INIT)
  {
  }

  /** Over every run each key is published or unpublished at most once, and only under its claim. */
  lemma AtMostOneWritePerKey(events: seq<Event>, j: nat, k: nat)
    requires j < |Run(INIT, events).world.sent| && k < |Run(INIT, events).world.sent|
    ensures var w := Run(INIT, events).world;
            && (w.sent[j] == w.sent[k] ==> j == k)
            && w.sent[j] in w.disk.histories && w.disk.histories[w.sent[j]] != []
  {
    hide Run, Safe, HistoryFine;
    ReachableInv(events);
  }

  /** A journal is a claim and then at most one terminal event of the same intent. */
  lemma AtMostOneOutcome(events: seq<Event>, key: nat)
    requires key in Run(INIT, events).world.disk.histories
    ensures HistoryFine(Run(INIT, events).world.disk.histories[key], key)
  {
    hide Run, Safe, HistoryFine, EffectSafe;
    ReachableInv(events);
  }
}
