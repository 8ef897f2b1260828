/** Publishing a page: one claim, one write, bounded rereads, one terminal event. */
module Publication {
  import opened Prelude

  datatype Action = Publish | Unpublish

  /** What the editor shows: whether the page is published, and the digest of its last change. */
  datatype Seen = Seen(published: bool, changed: nat)

  datatype Phase = Claimed | Succeeded | Noop | Failed | Ambiguous

  datatype FailureCode = FailedUnchanged | PreviousAttemptUnchanged | PublicationAmbiguous

  datatype Reconciliation = ErrorReconciled | AckReconciled | ReplayReconciled

  datatype Record = Record(
    key: nat, action: Action, target: nat, createdAt: nat, beforePublished: bool, beforeChanged: nat,
    state: Phase, updatedAt: nat, failure: Option<FailureCode>, reconciliation: Option<Reconciliation>)

  /** Each key is bound to a publication or to some other operation; `littered` holds journals with a torn write. */
  datatype Disk = Disk(histories: map<nat, seq<Record>>, littered: set<nat>, bound: map<nat, bool>)

  datatype Error =
    | KeyRequired | ReadFailed | StateCorrupt | IdempotencyConflict | AppendRefused
    | ReplayDrift | RecoveryRequired | ErrFailedUnchanged | ErrAmbiguous

  datatype Effect = BindKey(key: nat) | WriteClaim(record: Record) | Send(key: nat) | Append(record: Record)

  datatype Report = Report(seen: Seen, stateChanged: bool, dryRun: bool)

  datatype Outcome = Outcome(effects: seq<Effect>, result: Result<Report, Error>)

  datatype Reply = Acknowledged | Unacknowledged | Threw

  /** The first read, the reply to the write, and the rereads in order: one at once and one after each delay. */
  datatype Answers = Answers(before: Option<Seen>, reply: Reply, rereads: seq<Option<Seen>>)

  predicate Desired(action: Action, s: Seen) {
    if action.Publish? then s.published else !s.published
  }

  // ----- Rereading -----

  datatype Verdict = IsDesired | IsUnchanged | IsAmbiguous

  function Classify(action: Action, r: Record, s: Option<Seen>): Verdict {
    if s.None? then IsAmbiguous
    else if Desired(action, s.value) && s.value.changed == r.beforeChanged then IsDesired
    else if s.value.published == r.beforePublished && s.value.changed == r.beforeChanged then IsUnchanged
    else IsAmbiguous
  }

  /** The first reread that is not unchanged, or the last one. */
  function Deciding(action: Action, r: Record, rereads: seq<Option<Seen>>): (k: nat)
    requires rereads != []
    ensures k < |rereads|
    ensures forall j :: 0 <= j < k ==> Classify(action, r, rereads[j]).IsUnchanged?
    ensures Classify(action, r, rereads[k]).IsUnchanged? ==> k == |rereads| - 1
  {
    if |rereads| == 1 || !Classify(action, r, rereads[0]).IsUnchanged? then 0
    else 1 + Deciding(action, r, rereads[1..])
  }

  /** Rereads at once and then after each delay until something other than the old state shows; it never writes. */
  method ReadAfterDispatch(action: Action, r: Record, rereads: seq<Option<Seen>>)
    returns (state: Verdict, value: Option<Seen>, used: nat)
    requires rereads != []
    ensures used == Deciding(action, r, rereads) + 1 <= |rereads|
    ensures value == rereads[used - 1] && state == Classify(action, r, value)
  {
    value := rereads[0];
    state := Classify(action, r, value);
    used := 1;
    while state.IsUnchanged? && used < |rereads|
      invariant 1 <= used <= |rereads|
      invariant value == rereads[used - 1] && state == Classify(action, r, value)
      invariant forall j :: 0 <= j < used - 1 ==> Classify(action, r, rereads[j]).IsUnchanged?
    {
      value := rereads[used];
      state := Classify(action, r, value);
      used := used + 1;
    }
    DecidingIsUnique(action, r, rereads, used - 1);
  }

  lemma {:induction false} DecidingIsUnique(action: Action, r: Record, rereads: seq<Option<Seen>>, k: nat)
    requires rereads != [] && k < |rereads|
    requires forall j :: 0 <= j < k ==> Classify(action, r, rereads[j]).IsUnchanged?
    requires Classify(action, r, rereads[k]).IsUnchanged? ==> k == |rereads| - 1
    ensures Deciding(action, r, rereads) == k
  {
    if k > 0 {
      forall j | 0 <= j < k - 1 ensures Classify(action, r, rereads[1..][j]).IsUnchanged? {
        assert rereads[1..][j] == rereads[j + 1];
      }
      DecidingIsUnique(action, r, rereads[1..], k - 1);
    }
  }

  // ----- The journal -----

  function Terminal(r: Record, state: Phase, now: nat, failure: Option<FailureCode>,
                    code: Option<Reconciliation>): Record
  {
    r.(state := state, updatedAt := now,
    failure := if failure.Some? then failure else r.failure,
    reconciliation := if code.Some? then code else r.reconciliation)
  }

  predicate SameIntent(a: Record, b: Record) {
    a.key == b.key && a.action == b.action && a.target == b.target && a.createdAt == b.createdAt
    && a.beforePublished == b.beforePublished && a.beforeChanged == b.beforeChanged
  }

  predicate RecordAccepted(r: Record) {
    r.createdAt <= r.updatedAt && (r.state.Failed? || r.state.Ambiguous? ==> r.failure.Some?)
  }

  predicate Loadable(d: Disk, key: nat) {
    key in d.histories && d.histories[key] != [] && key !in d.littered
  }

  function Last(d: Disk, key: nat): Record
    requires Loadable(d, key)
  {
    d.histories[key][|d.histories[key]| - 1]
  }

  predicate AppendAccepted(d: Disk, r: Record) {
    && RecordAccepted(r) && Loadable(d, r.key)
    && SameIntent(Last(d, r.key), r) && Last(d, r.key).state.Claimed? && !r.state.Claimed?
    && Last(d, r.key).updatedAt <= r.updatedAt
  }

  // ----- One call -----

  function Finish(d: Disk, sent: seq<Effect>, current: Record, r: Record, result: Result<Report, Error>): Outcome {
    if RecordAccepted(r) && current.updatedAt <= r.updatedAt then Outcome(sent + [Append(r)], result)
    else Outcome(sent, Err(AppendRefused))
  }

  function FirstRecord(key: nat, action: Action, target: nat, before: Seen, now: nat): Record {
    Record(key, action, target, now, before.published, before.changed, Claimed, now, None, None)
  }

  function Execute(d: Disk, key: Option<nat>, action: Action, target: nat, dryRun: bool, a: Answers,
                   claimedAt: nat, now: nat): Outcome
    requires a.rereads != []
  {
    if dryRun then
      if a.before.None? then Outcome([], Err(ReadFailed)) else Outcome([], Ok(Report(a.before.value, false, true)))
    else if key.None? then Outcome([], Err(KeyRequired))
    else if a.before.None? then Outcome([], Err(ReadFailed))
    else if key.value in d.histories then
      if !Loadable(d, key.value) then Outcome([], Err(StateCorrupt))
      else
        var existing := Last(d, key.value);
        if existing.action != action || existing.target != target then Outcome([], Err(IdempotencyConflict))
        else ReconcileReplay(d, existing, a.before.value, now)
    else if key.value in d.bound && !d.bound[key.value] then Outcome([], Err(IdempotencyConflict))
    else
      var r := FirstRecord(key.value, action, target, a.before.value, claimedAt);
      var claimed := (if key.value in d.bound then [] else [BindKey(key.value)]) + [WriteClaim(r)];
      if Desired(action, a.before.value) then
        Finish(d, claimed, r, Terminal(r, Noop, now, None, None), Ok(Report(a.before.value, false, false)))
      else
        AfterSend(d, claimed + [Send(key.value)], r, a, now)
  }

  function AfterSend(d: Disk, sent: seq<Effect>, r: Record, a: Answers, now: nat): Outcome
    requires a.rereads != []
  {
    var after := a.rereads[Deciding(r.action, r, a.rereads)];
    match Classify(r.action, r, after)
    case IsDesired =>
      var code := if a.reply.Threw? then Some(ErrorReconciled) else if a.reply.Unacknowledged? then Some(AckReconciled) else None;
      Finish(d, sent, r, Terminal(r, Succeeded, now, None, code), Ok(Report(after.value, true, false)))
    case IsUnchanged =>
      Finish(d, sent, r, Terminal(r, Failed, now, Some(FailedUnchanged), None), Err(ErrFailedUnchanged))
    case IsAmbiguous =>
      Finish(d, sent, r, Terminal(r, Ambiguous, now, Some(PublicationAmbiguous), None), Err(ErrAmbiguous))
  }

  /** A claimed key: report or classify what is there now, never write again. */
  function ReconcileReplay(d: Disk, r: Record, current: Seen, now: nat): Outcome {
    if r.state.Succeeded? || r.state.Noop? then
      if Desired(r.action, current) && current.changed == r.beforeChanged then Outcome([], Ok(Report(current, false, false)))
      else Outcome([], Err(ReplayDrift))
    else if r.state.Failed? || r.state.Ambiguous? then Outcome([], Err(RecoveryRequired))
    else match Classify(r.action, r, Some(current))
      case IsDesired =>
        var already := if r.action.Publish? then r.beforePublished else !r.beforePublished;
        Finish(d, [], r, Terminal(r, if already then Noop else Succeeded, now, None, Some(ReplayReconciled)),
               Ok(Report(current, false, false)))
      case IsUnchanged =>
        Finish(d, [], r, Terminal(r, Failed, now, Some(PreviousAttemptUnchanged), None), Err(RecoveryRequired))
      case IsAmbiguous =>
        Finish(d, [], r, Terminal(r, Ambiguous, now, Some(PublicationAmbiguous), None), Err(ErrAmbiguous))
  }

  // ----- Steps -----

  datatype World = World(disk: Disk, sent: seq<nat>)

  function Do(w: World, e: Effect): World {
    var d := w.disk;
    match e
    case BindKey(key) => w.(disk := d.(bound := d.bound[key := true]))
    case WriteClaim(r) => w.(disk := d.(histories := d.histories[r.key := [r]]))
    case Send(key) => w.(sent := w.sent + [key])
    case Append(r) =>
      if r.key in d.histories then w.(disk := d.(histories := d.histories[r.key := d.histories[r.key] + [r]])) else w
  }

  predicate HistoryFine(h: seq<Record>, key: nat) {
    && |h| <= 2
    && (forall k :: 0 <= k < |h| ==> h[k].key == key && RecordAccepted(h[k]))
    && (|h| > 0 ==> h[0].state.Claimed?)
    && (|h| == 2 ==> !h[1].state.Claimed? && SameIntent(h[0], h[1]) && h[0].updatedAt <= h[1].updatedAt)
  }

  ghost predicate SentOnce(sent: seq<nat>) {
    forall j, k :: 0 <= j < k < |sent| ==> sent[j] != sent[k]
  }

  /** A key is sent at most once, never before its claim, and its journal is a claim and at most one outcome. */
  ghost predicate WorldInv(w: World) {
    && (forall key :: key in w.disk.histories ==> HistoryFine(w.disk.histories[key], key))
    && (forall key :: key in w.disk.histories ==> key in w.disk.bound && w.disk.bound[key])
    && (forall k :: 0 <= k < |w.sent| ==> w.sent[k] in w.disk.histories && w.disk.histories[w.sent[k]] != [])
    && SentOnce(w.sent)
  }

  ghost predicate EffectSafe(w: World, e: Effect) {
    match e
    case BindKey(key) => key !in w.disk.bound
    case WriteClaim(r) =>
      && r.key !in w.disk.histories && r.key in w.disk.bound && w.disk.bound[r.key]
      && r.state.Claimed? && RecordAccepted(r)
    case Send(key) => Loadable(w.disk, key) && key !in w.sent
    case Append(r) => AppendAccepted(w.disk, r)
  }

  ghost predicate Safe(w: World, es: seq<Effect>)
    decreases |es|
  {
    es == [] || (EffectSafe(w, es[0]) && Safe(Do(w, es[0]), es[1..]))
  }

  lemma StepKeeps(w: World, e: Effect)
    requires WorldInv(w) && EffectSafe(w, e)
    ensures WorldInv(Do(w, e))
  {
    if e.Append? {
      var h := w.disk.histories[e.record.key];
      assert HistoryFine(h, e.record.key);
      assert HistoryFine(h + [e.record], e.record.key);
    }
  }

  lemma SafeCons(w: World, a: Effect, rest: seq<Effect>)
    requires EffectSafe(w, a) && Safe(Do(w, a), rest)
    ensures Safe(w, [a] + rest)
  {
    assert ([a] + rest)[1..] == rest;
  }
}
