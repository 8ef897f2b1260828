/**
 The authority in use: guards, browser leases that dispatch mutations, and reference
 clones with their cleanup, all interleaved at every await.
 */
module AuthorityRuns {
  import opened Prelude
  import opened TaskScope
  import opened TaskAuthority

  /** A browser lease; `flight` is the dispatch lease of the mutation it is sending. */
  datatype BrowserLease = BrowserLease(
    guard: Guard, binding: Binding, expiresAt: int,
    closed: bool, busy: bool, slotUsed: bool, flight: Option<nat>)

  datatype Lineage = Lineage(taskId: nat, scoped: Grant, createdPages: seq<nat>)

  /** A clone or cleanup whose remote step has started. */
  datatype Work = Work(lease: nat, taskId: nat, scoped: Grant, source: Target, cleanup: Option<Receipt>, pages: seq<nat>)

  /** `token` is the transport's own handle on the clone; nothing is known of it but its identity. */
  datatype CreateEvidence = CreateEvidence(
    token: nat,
    source: Target, created: Target, baseline: seq<nat>, baselineOrder: seq<nat>,
    createdPages: seq<nat>, createdOrder: seq<nat>,
    sourceRecords: seq<nat>, createdRecords: seq<nat>, parity: bool, unpublished: bool)

  datatype CleanupEvidence = CleanupEvidence(source: Target, removed: nat, absent: bool, activePages: seq<nat>)

  /** `proofs` is a record for reasoning: the evidence each receipt was issued on. */
  datatype State = State(
    manager: Manager, minted: set<Guard>,
    process: Option<nat>, leases: map<nat, BrowserLease>, sent: seq<nat>,
    works: map<nat, Work>, tokens: map<Receipt, nat>, lineage: map<Receipt, Lineage>,
    deletes: seq<(Receipt, nat)>, proofs: map<Receipt, CreateEvidence>, nextReceipt: nat)

  const START := State(INIT, {}, None, map[], [], map[], map[], map[], [], map[], 0)

  datatype Event =
    | Look(now: int)
    | MintEvent(input: MintInput, taskId: nat, now: int)
    | ReplaceEvent(input: MintInput, taskId: nat, now: int)
    | ClearEvent
    | BeginExecutionEvent(guard: Guard, now: int, later: int)
    | EndExecutionEvent(lease: nat)
    | Acquire(id: nat, guard: Guard, binding: Binding, expiresAt: int, now: int)
    | StartOperation(id: nat, now: int, fresh1: bool)
    | StartMutation(id: nat, now: int, later: int, fresh1: bool, fresh2: bool)
    | EndMutation(id: nat)
    | EndOperation(id: nat)
    | CloseLease(id: nat)
    | BeginCreate(work: nat, source: Target, now: int)
    | EndCreate(work: nat, evidence: Option<CreateEvidence>, now: int)
    | BeginCleanup(work: nat, receipt: Receipt, now: int)
    | EndCleanup(work: nat, cleaned: Option<CleanupEvidence>, now: int)

  // ----- Browser leases -----

  /** `trusted` stands for the process-local facts about the tab and its binding, which can change at any time. */
  predicate Fresh(s: State, id: nat, now: int, trusted: bool)
    requires id in s.leases
  {
    var l := s.leases[id];
    && !l.closed && GuardLive(s.manager, l.guard, now) && l.guard.grant.binding == l.binding
    && s.process == Some(id) && trusted && now <= l.expiresAt
  }

  function Acquired(s: State, e: Event): State
    requires e.Acquire?
  {
    if s.process.Some? || e.id in s.leases || e.guard !in s.minted || !GuardLive(s.manager, e.guard, e.now) then s
    else s.(process := Some(e.id),
    leases := s.leases[e.id := BrowserLease(e.guard, e.binding, e.expiresAt, false, false, false, None)])
  }

  /** The single last-mile boundary: fresh, take the dispatch lease, fresh again, consume the slot, send. */
  function Dispatched(s: State, id: nat, now: int, later: int, fresh1: bool, fresh2: bool): State
    requires id in s.leases
  {
    var l := s.leases[id];
    if !l.busy || l.flight.Some? || !Fresh(s, id, now, fresh1) then s
    else
      var (m, lease) := BeginDispatch(s.manager, l.guard, now, later);
      var held := s.(manager := m);
      if lease.Err? then held
      else if !Fresh(held, id, later, fresh2) || l.slotUsed then s.(manager := EndDispatch(m, lease.value))
      else held.(leases := s.leases[id := l.(slotUsed := true, flight := Some(lease.value))], sent := s.sent + [id])
  }

  function Landed(s: State, id: nat): State
    requires id in s.leases
  {
    var l := s.leases[id];
    if l.flight.None? then s
    else s.(manager := EndDispatch(s.manager, l.flight.value), leases := s.leases[id := l.(flight := None)])
  }

  function Closed(s: State, id: nat): State
    requires id in s.leases
  {
    var l := s.leases[id];
    if l.closed || l.busy then s
    else s.(leases := s.leases[id := l.(closed := true)], process := if s.process == Some(id) then None else s.process)
  }

  // ----- Reference clones -----

  predicate Unique(ids: seq<nat>) { ids != [] && Distinct(ids) }

  /** What the transport must prove about one clone. */
  predicate CreateVerified(source: Target, e: CreateEvidence) {
    && source.Page? && e.source == source && e.created.Page? && e.created.project == source.project
    && e.created.page != source.page && e.parity && e.unpublished
    && Unique(e.baseline) && Unique(e.baselineOrder) && Unique(e.createdPages) && Unique(e.createdOrder)
    && |e.baseline| == |e.baselineOrder| && |e.createdPages| == |e.createdOrder|
    && |e.createdPages| == |e.baseline| + 1
    && source.page in e.baseline && e.created.page in e.createdPages
    && (forall id :: id in e.baseline ==> id in e.createdPages)
    && Unique(e.sourceRecords) && Unique(e.createdRecords) && |e.createdRecords| == |e.sourceRecords|
    && (forall id :: id in e.createdRecords ==> id !in e.sourceRecords)
    && e.created.page !in e.baseline
    && (forall id :: id in e.createdPages && id !in e.baseline ==> id == e.created.page)
  }

  predicate CleanupVerified(r: Receipt, e: CleanupEvidence)
    requires r.created.Page?
  {
    e.source == r.source && e.removed == r.created.page && e.absent && r.created.page !in e.activePages
  }

  /** Clone evidence that the controller accepts always proves the exact change the authority demands. */
  lemma VerifiedCloneIsExact(source: Target, e: CreateEvidence)
    requires CreateVerified(source, e)
    ensures ExactChange(Clone, e.baseline, e.createdPages, source.page, e.created.page)
  {
  }

  function CreateBegun(s: State, work: nat, source: Target, now: int): State {
    if work in s.works || !source.Page? then s
    else
      var (m, lease) := BeginReference(s.manager, source, None, now);
      if lease.Err? || m.active.None? then s.(manager := m)
      else s.(manager := m, works := s.works[work := Work(lease.value, m.active.value.grant.taskId,
                                                          Scoped(m.active.value.grant), source, None, [])])
  }

  function CreateEnded(s: State, work: nat, evidence: Option<CreateEvidence>, now: int): State
    requires work in s.works
  {
    var w := s.works[work];
    var done := s.(works := s.works - {work});
    if evidence.None? || !CreateVerified(w.source, evidence.value) then
      done.(manager := EndReference(s.manager, w.lease))
    else
      var e := evidence.value;
      var r := Receipt(s.nextReceipt, w.source, e.created);
      var known := done.(tokens := s.tokens[r := e.token], proofs := s.proofs[r := e], nextReceipt := s.nextReceipt + 1);
      var (m, accepted) := Accept(s.manager.(eligible := s.manager.eligible + {r}),
                                  Transition(Clone, w.taskId, w.scoped, w.lease, r, e.baseline, e.createdPages), now);
      var ended := known.(manager := EndReference(m, w.lease));
      if accepted.Err? then ended
      else ended.(minted := s.minted + {GuardOf(accepted.value)},
        lineage := s.lineage[r := Lineage(w.taskId, w.scoped, e.createdPages)])
  }

  /** The receipt is consumed before the delete is sent, so that an unclear cleanup is never repeated. */
  function CleanupBegun(s: State, work: nat, r: Receipt, now: int): State {
    var seen := s.(manager := Current(s.manager, now));
    if work in s.works || r !in s.lineage || !r.source.Page? || seen.manager.active.None? then seen
    else
      var a := seen.manager.active.value;
      if !GuardLive(seen.manager, GuardOf(a), now) || a.grant.taskId != s.lineage[r].taskId
         || Scoped(a.grant) != s.lineage[r].scoped then seen
      else
        var (m, lease) := BeginReference(seen.manager, r.source, Some(r), now);
        if lease.Err? then s.(manager := m)
        else
          var spent := s.(manager := m, lineage := s.lineage - {r});
          if r !in s.tokens then spent.(manager := EndReference(m, lease.value))
          else spent.(tokens := s.tokens - {r}, deletes := s.deletes + [(r, s.tokens[r])],
            works := s.works[work := Work(lease.value, s.lineage[r].taskId, s.lineage[r].scoped, r.source, Some(r),
                                          s.lineage[r].createdPages)])
  }

  function CleanupEnded(s: State, work: nat, cleaned: Option<CleanupEvidence>, now: int): State
    requires work in s.works && s.works[work].cleanup.Some?
  {
    var w := s.works[work];
    var r := w.cleanup.value;
    var done := s.(works := s.works - {work});
    if cleaned.None? || !r.created.Page? || !CleanupVerified(r, cleaned.value) then
      done.(manager := EndReference(s.manager, w.lease))
    else
      var (m, accepted) := Accept(s.manager, Transition(Cleanup, w.taskId, w.scoped, w.lease, r, w.pages,
                                                        cleaned.value.activePages), now);
      done.(manager := EndReference(m, w.lease),
      minted := if accepted.Ok? then s.minted + {GuardOf(accepted.value)} else s.minted)
  }

  function Granted(s: State, m: Manager, r: Result<Active, Error>): State {
    s.(manager := m, minted := if r.Ok? then s.minted + {GuardOf(r.value)} else s.minted)
  }

  /** An event that is not possible leaves the state as it is. */
  function Step(s: State, e: Event): State {
    match e
    case Look(now) => s.(manager := Current(s.manager, now))
    case MintEvent(input, taskId, now) => var (m, r) := Mint(s.manager, input, taskId, now); Granted(s, m, r)
    case ReplaceEvent(input, taskId, now) => var (m, r) := Replace(s.manager, input, taskId, now); Granted(s, m, r)
    case ClearEvent => s.(manager := Clear(s.manager).0)
    case BeginExecutionEvent(g, now, later) =>
      if g in s.minted then s.(manager := BeginExecution(s.manager, g, now, later).0) else s
    case EndExecutionEvent(lease) => s.(manager := EndExecution(s.manager, lease))
    case Acquire(_, _, _, _, _) => Acquired(s, e)
    case StartOperation(id, now, trusted) =>
      if id in s.leases && !s.leases[id].busy && Fresh(s, id, now, trusted)
      then s.(leases := s.leases[id := s.leases[id].(busy := true)]) else s
    case StartMutation(id, now, later, fresh1, fresh2) =>
      if id in s.leases then Dispatched(s, id, now, later, fresh1, fresh2) else s
    case EndMutation(id) => if id in s.leases then Landed(s, id) else s
    case EndOperation(id) =>
      if id in s.leases && s.leases[id].flight.None?
      then s.(leases := s.leases[id := s.leases[id].(busy := false)]) else s
    case CloseLease(id) => if id in s.leases then Closed(s, id) else s
    case BeginCreate(work, source, now) => CreateBegun(s, work, source, now)
    case EndCreate(work, evidence, now) =>
      if work in s.works && s.works[work].cleanup.None? then CreateEnded(s, work, evidence, now) else s
    case BeginCleanup(work, r, now) => CleanupBegun(s, work, r, now)
    case EndCleanup(work, cleaned, now) =>
      if work in s.works && s.works[work].cleanup.Some? then CleanupEnded(s, work, cleaned, now) else s
  }

  function Run(s: State, events: seq<Event>): State
    decreases |events|
  {
    if events == [] then s else Step(Run(s, events[..|events| - 1]), events[|events| - 1])
  }

  // ----- Invariant -----

  /** Only the newest guard can be unrevoked, and it is the guard of the active grant. */
  ghost predicate GuardsKnown(m: Manager, minted: set<Guard>) {
    forall g :: g in minted ==>
                  g.token < m.next && (g.token == m.revocation ==> m.active.Some? && g == GuardOf(m.active.value))
  }

  predicate FlightHeld(m: Manager, l: BrowserLease) {
    l.flight.Some? ==> l.slotUsed && l.busy && m.dispatch == l.flight && l.guard.token == m.revocation
  }

  ghost predicate FlightsHeld(m: Manager, leases: map<nat, BrowserLease>, minted: set<Guard>) {
    && (forall id :: id in leases ==> leases[id].guard in minted && FlightHeld(m, leases[id]))
    && (forall a, b :: a in leases && b in leases && leases[a].flight.Some? && leases[b].flight.Some? ==> a == b)
  }

  ghost predicate SentOnce(sent: seq<nat>, leases: map<nat, BrowserLease>) {
    && (forall k :: 0 <= k < |sent| ==> sent[k] in leases && leases[sent[k]].slotUsed)
    && (forall j, k :: 0 <= j < k < |sent| ==> sent[j] != sent[k])
  }

  /** The receipt names the page that verified evidence showed to be the clone. */
  predicate IssuedOn(r: Receipt, e: CreateEvidence) {
    CreateVerified(r.source, e) && r.created == e.created
  }

  ghost predicate ReceiptsSpent(s: State) {
    && (forall r :: r in s.proofs ==> r.id < s.nextReceipt && IssuedOn(r, s.proofs[r]))
    && (forall r :: r in s.tokens ==> r in s.proofs && s.tokens[r] == s.proofs[r].token)
    && (forall k :: 0 <= k < |s.deletes| ==>
          && s.deletes[k].0 in s.proofs && s.deletes[k].0 !in s.tokens
          && s.deletes[k].1 == s.proofs[s.deletes[k].0].token)
    && (forall j, k :: 0 <= j < k < |s.deletes| ==> s.deletes[j].0 != s.deletes[k].0)
  }

  ghost predicate Inv(s: State) {
    && Sound(s.manager)
    && GuardsKnown(s.manager, s.minted)
    && FlightsHeld(s.manager, s.leases, s.minted)
    && SentOnce(s.sent, s.leases)
    && ReceiptsSpent(s)
  }

  // ----- What one manager operation may do -----

  function NewGuard(issued: Option<Active>): set<Guard> {
    if issued.Some? then {GuardOf(issued.value)} else {}
  }

  /** The authority stays, or is dropped, or is newly issued; a held dispatch lease allows only the first. */
  predicate Evolves(m: Manager, next: Manager, issued: Option<Active>) {
    && Sound(next) && m.next <= next.next
    && (m.dispatch.Some? ==> next.dispatch == m.dispatch && next.revocation == m.revocation)
    && (|| (next.revocation == m.revocation && next.active == m.active && issued.None?)
        || (next.revocation >= m.next && next.active.None? && issued.None?)
        || (next.revocation >= m.next && issued.Some? && next.active == issued))
  }

  lemma EvolvesTwice(m: Manager, mid: Manager, next: Manager, issued: Option<Active>)
    requires Evolves(m, mid, None) && Evolves(mid, next, issued) && m.revocation < m.next
    ensures Evolves(m, next, issued)
  {
    hide Sound;
  }

  lemma EvolvesThenQuiet(m: Manager, mid: Manager, next: Manager, issued: Option<Active>)
    requires Evolves(m, mid, issued) && Sound(next)
    requires next.revocation == mid.revocation && next.active == mid.active && next.dispatch == mid.dispatch && next.next == mid.next
    ensures Evolves(m, next, issued)
  {
    hide Sound;
  }

  lemma CurrentEvolves(m: Manager, now: int)
    requires Sound(m)
    ensures Evolves(m, Current(m, now), None)
  {
    hide ActiveSound;
  }

  lemma GrantsEvolve(m: Manager, input: MintInput, taskId: nat, now: int)
    requires Sound(m)
    ensures var (next, r) := Mint(m, input, taskId, now); Evolves(m, next, if r.Ok? then Some(r.value) else None)
    ensures var (next, r) := Replace(m, input, taskId, now); Evolves(m, next, if r.Ok? then Some(r.value) else None)
    ensures Evolves(m, Clear(m).0, None)
  {
    hide ActiveSound, Build;
    MintSound(m, input, taskId, now);
    BuildSound(input, taskId, Current(m, now).next, now);
  }

  lemma ExecutionEvolves(m: Manager, g: Guard, lease: nat, now: int, later: int)
    requires Sound(m)
    ensures Evolves(m, BeginExecution(m, g, now, later).0, None)
    ensures Evolves(m, EndExecution(m, lease), None) && Evolves(m, EndReference(m, lease), None)
  {
    hide ActiveSound;
    LeasesSound(m, g, lease, now, later);
  }

  lemma ReferenceEvolves(m: Manager, source: Target, receipt: Option<Receipt>, now: int)
    requires Sound(m) && source.Page?
    ensures Evolves(m, BeginReference(m, source, receipt, now).0, None)
  {
    hide ActiveSound, MayChange, GuardLive;
    BeginReferenceSound(m, source, receipt, now);
  }

  lemma AcceptEvolves(m: Manager, t: Transition, now: int, lease: nat)
    requires Sound(m)
    ensures var (next, r) := Accept(m, t, now);
            && Evolves(m, next, if r.Ok? then Some(r.value) else None)
            && Evolves(m, EndReference(next, lease), if r.Ok? then Some(r.value) else None)
            && EndReference(next, lease).eligible == next.eligible
  {
    hide ActiveSound, TransitionError, Rebind, GrantValid;
    AcceptMoves(m, t, now);
    CurrentEvolves(m, now);
    var (next, r) := Accept(m, t, now);
    if r.Ok? { AcceptRevokes(m, t, now); }
    LeasesSound(next, Guard(0, Grant(0, ObserveMode, 0, 0, 0, Binding(0, Inventory(0, map[])), [], [], [], None)), lease, 0, 0);
    EvolvesThenQuiet(m, next, EndReference(next, lease), if r.Ok? then Some(r.value) else None);
  }

  /** An accepted transition revokes every guard that existed before it. */
  lemma AcceptRevokes(m: Manager, t: Transition, now: int)
    requires Sound(m) && Accept(m, t, now).1.Ok?
    ensures Accept(m, t, now).0.revocation == Current(m, now).next >= m.next
    ensures Accept(m, t, now).0.next == Current(m, now).next + 1
    ensures m.dispatch.None?
  {
    hide ActiveSound, TransitionError, GrantValid;
    AcceptMoves(m, t, now);
  }

  lemma GuardsEvolve(m: Manager, next: Manager, issued: Option<Active>, minted: set<Guard>)
    requires Sound(m) && GuardsKnown(m, minted) && Evolves(m, next, issued)
    ensures GuardsKnown(next, minted + NewGuard(issued))
  {
    hide ActiveSound;
  }

  lemma FlightsEvolve(m: Manager, next: Manager, issued: Option<Active>, leases: map<nat, BrowserLease>, minted: set<Guard>)
    requires FlightsHeld(m, leases, minted) && Evolves(m, next, issued)
    ensures FlightsHeld(next, leases, minted + NewGuard(issued))
  {
    hide Sound;
    forall id | id in leases ensures FlightHeld(next, leases[id]) { assert FlightHeld(m, leases[id]); }
  }

  /** A step that only moves the manager keeps the invariant. */
  lemma ManagerKeeps(s: State, next: Manager, issued: Option<Active>)
    requires Inv(s) && Evolves(s.manager, next, issued)
    ensures Inv(s.(manager := next, minted := s.minted + NewGuard(issued)))
  {
    hide Sound, GuardsKnown, FlightsHeld, SentOnce;
    assert Sound(next) by { EvolvesSound(s.manager, next, issued); }
    GuardsEvolve(s.manager, next, issued, s.minted);
    FlightsEvolve(s.manager, next, issued, s.leases, s.minted);
  }

  lemma EvolvesSound(m: Manager, next: Manager, issued: Option<Active>)
    requires Evolves(m, next, issued)
    ensures Sound(next)
  {
  }

  lemma ManagerKeepsAll(s: State, next: Manager)
    requires Inv(s) && Evolves(s.manager, next, None)
    ensures Inv(s.(manager := next))
  {
    hide Inv, Evolves;
    ManagerKeeps(s, next, None);
    assert s.minted + NewGuard(None) == s.minted;
  }

  lemma GrantedKeeps(s: State, next: Manager, r: Result<Active, Error>)
    requires Inv(s) && Evolves(s.manager, next, if r.Ok? then Some(r.value) else None)
    ensures Inv(Granted(s, next, r))
  {
    hide Inv, Evolves;
    ManagerKeeps(s, next, if r.Ok? then Some(r.value) else None);
    assert s.minted + NewGuard(None) == s.minted;
  }

  // ----- Browser leases keep the invariant -----

  /** Leases may appear, or change everything but their flight, guard and slot. */
  lemma LeaseKeeps(s: State, id: nat, l: BrowserLease)
    requires Inv(s) && l.guard in s.minted
    requires if id in s.leases then l.guard == s.leases[id].guard && l.slotUsed == s.leases[id].slotUsed
                                    && l.flight == s.leases[id].flight && (l.flight.Some? ==> l.busy)
             else l.flight.None?
    ensures Inv(s.(leases := s.leases[id := l]))
  {
    hide Sound, GuardsKnown;
    var t := s.leases[id := l];
    forall x | x in t ensures t[x].guard in s.minted && FlightHeld(s.manager, t[x]) {
      if x in s.leases { assert FlightHeld(s.manager, s.leases[x]); }
    }
    assert FlightsHeld(s.manager, t, s.minted);
    assert ReceiptsSpent(s.(leases := t));
  }

  lemma ProcessIsFree(s: State, process: Option<nat>)
    requires Inv(s)
    ensures Inv(s.(process := process))
  {
    hide Sound, GuardsKnown, FlightsHeld, SentOnce;
  }

  lemma DispatchEvolves(m: Manager, g: Guard, lease: nat, now: int, later: int)
    requires Sound(m)
    ensures var (next, r) := BeginDispatch(m, g, now, later);
            && Evolves(m, next, None)
            && (r.Ok? ==> Evolves(m, EndDispatch(next, r.value), None) && m.dispatch.None?)
  {
    hide ActiveSound;
    LeasesSound(m, g, lease, now, later);
    var (next, r) := BeginDispatch(m, g, now, later);
    if r.Ok? { LeasesSound(next, g, r.value, now, later); }
  }

  lemma DispatchedKeeps(s: State, id: nat, now: int, later: int, fresh1: bool, fresh2: bool)
    requires Inv(s) && id in s.leases
    ensures Inv(Dispatched(s, id, now, later, fresh1, fresh2))
  {
    hide Inv, Evolves, Fresh, BeginDispatch, EndDispatch;
    var l := s.leases[id];
    assert Sound(s.manager) by { InvSound(s); }
    DispatchEvolves(s.manager, l.guard, 0, now, later);
    var (m, lease) := BeginDispatch(s.manager, l.guard, now, later);
    ManagerKeepsAll(s, m);
    if lease.Ok? {
      ManagerKeepsAll(s, EndDispatch(m, lease.value));
      if l.busy && l.flight.None? && Fresh(s.(manager := m), id, later, fresh2) && !l.slotUsed {
        DispatchGranted(s.manager, l.guard, now, later);
        FlightStarts(s, m, id, lease.value);
      }
    }
  }

  lemma InvSound(s: State)
    requires Inv(s)
    ensures Sound(s.manager)
  {
  }

  lemma FlightStarts(s: State, m: Manager, id: nat, lease: nat)
    requires Inv(s) && Inv(s.(manager := m)) && id in s.leases
    requires s.manager.dispatch.None? && m.dispatch == Some(lease)
    requires s.leases[id].busy && !s.leases[id].slotUsed && s.leases[id].guard.token == m.revocation
    ensures Inv(s.(manager := m, leases := s.leases[id := s.leases[id].(slotUsed := true, flight := Some(lease))],
                   sent := s.sent + [id]))
  {
    hide Sound, GuardsKnown;
    var l := s.leases[id].(slotUsed := true, flight := Some(lease));
    var t := s.leases[id := l];
    forall x | x in s.leases ensures s.leases[x].flight.None? { assert FlightHeld(s.manager, s.leases[x]); }
    forall x | x in t ensures t[x].guard in s.minted && FlightHeld(m, t[x]) {}
    assert FlightsHeld(m, t, s.minted);
    assert id !in s.sent;
    assert SentOnce(s.sent + [id], t);
    assert ReceiptsSpent(s.(manager := m, leases := t, sent := s.sent + [id]));
  }

  lemma LandedKeeps(s: State, id: nat)
    requires Inv(s) && id in s.leases
    ensures Inv(Landed(s, id))
  {
    hide Sound;
    var l := s.leases[id];
    if l.flight.Some? {
      assert FlightHeld(s.manager, l);
      var m := EndDispatch(s.manager, l.flight.value);
      LeasesSound(s.manager, l.guard, l.flight.value, 0, 0);
      var t := s.leases[id := l.(flight := None)];
      forall x | x in t ensures t[x].guard in s.minted && FlightHeld(m, t[x]) {
        assert FlightHeld(s.manager, s.leases[x]);
      }
      assert FlightsHeld(m, t, s.minted);
      assert SentOnce(s.sent, t);
      assert ReceiptsSpent(s.(manager := m, leases := t));
    }
  }

  // ----- Clones and cleanups keep the invariant -----

  /** The invariant speaks of receipts only through their tokens, their deletes and the next number. */
  lemma RecordsKeep(s: State, t: State)
    requires Inv(s) && ReceiptsSpent(t)
    requires t.manager == s.manager && t.minted == s.minted && t.leases == s.leases && t.sent == s.sent
    ensures Inv(t)
  {
    hide Sound, GuardsKnown, FlightsHeld, SentOnce, ReceiptsSpent;
  }

  lemma ReceiptsRead(s: State, t: State)
    requires ReceiptsSpent(s) && t.tokens == s.tokens && t.deletes == s.deletes
    requires t.proofs == s.proofs && t.nextReceipt == s.nextReceipt
    ensures ReceiptsSpent(t)
  {
  }

  lemma InvReceipts(s: State)
    requires Inv(s)
    ensures ReceiptsSpent(s)
  {
  }

  lemma CreateBegunKeeps(s: State, work: nat, source: Target, now: int)
    requires Inv(s)
    ensures Inv(CreateBegun(s, work, source, now))
  {
    hide Inv, Evolves, BeginReference, Scoped, ReceiptsSpent;
    var t := CreateBegun(s, work, source, now);
    if work !in s.works && source.Page? {
      InvSound(s);
      ReferenceEvolves(s.manager, source, None, now);
      var m := BeginReference(s.manager, source, None, now).0;
      ManagerKeepsAll(s, m);
      InvReceipts(s);
      ReceiptsRead(s, t);
      RecordsKeep(s.(manager := m), t);
    }
  }

  lemma EligibleEvolves(m: Manager, r: Receipt)
    requires Sound(m)
    ensures Evolves(m, m.(eligible := m.eligible + {r}), None)
  {
    hide ActiveSound;
  }

  lemma NewReceipt(s: State, t: State, r: Receipt, e: CreateEvidence)
    requires ReceiptsSpent(s) && r.id == s.nextReceipt && IssuedOn(r, e)
    requires t.tokens == s.tokens[r := e.token] && t.proofs == s.proofs[r := e]
    requires t.deletes == s.deletes && t.nextReceipt == s.nextReceipt + 1
    ensures ReceiptsSpent(t)
  {
    hide IssuedOn;
  }

  lemma AcceptedKeeps(s: State, t: Transition, now: int, lease: nat)
    requires Inv(s)
    ensures var (m, r) := Accept(s.manager, t, now);
            Inv(s.(manager := EndReference(m, lease), minted := if r.Ok? then s.minted + {GuardOf(r.value)} else s.minted))
  {
    hide Inv, Evolves, Accept, EndReference;
    InvSound(s);
    AcceptEvolves(s.manager, t, now, lease);
    var (m, r) := Accept(s.manager, t, now);
    ManagerKeeps(s, EndReference(m, lease), if r.Ok? then Some(r.value) else None);
    assert s.minted + NewGuard(None) == s.minted;
  }

  lemma EndReferenceKeeps(s: State, lease: nat)
    requires Inv(s)
    ensures Inv(s.(manager := EndReference(s.manager, lease)))
  {
    hide Inv, Evolves, EndReference;
    InvSound(s);
    var any := Guard(0, Grant(0, ObserveMode, 0, 0, 0, Binding(0, Inventory(0, map[])), [], [], [], None));
    ExecutionEvolves(s.manager, any, lease, 0, 0);
    ManagerKeepsAll(s, EndReference(s.manager, lease));
  }

  lemma CreateEndedKeeps(s: State, work: nat, evidence: Option<CreateEvidence>, now: int)
    requires Inv(s) && work in s.works
    ensures Inv(CreateEnded(s, work, evidence, now))
  {
    hide Inv, Evolves, Accept, EndReference, CreateVerified, ReceiptsSpent;
    var w := s.works[work];
    var t := CreateEnded(s, work, evidence, now);
    InvReceipts(s);
    if evidence.None? || !CreateVerified(w.source, evidence.value) {
      EndReferenceKeeps(s, w.lease);
      ReceiptsRead(s, t);
      RecordsKeep(s.(manager := EndReference(s.manager, w.lease)), t);
    } else {
      CreateAcceptedKeeps(s, work, evidence.value, now);
    }
  }

  lemma CreateAcceptedKeeps(s: State, work: nat, e: CreateEvidence, now: int)
    requires Inv(s) && work in s.works && CreateVerified(s.works[work].source, e)
    ensures Inv(CreateEnded(s, work, Some(e), now))
  {
    hide Inv, Evolves, Accept, EndReference, CreateVerified, ReceiptsSpent, Scoped;
    var w := s.works[work];
    var t := CreateEnded(s, work, Some(e), now);
    var r := Receipt(s.nextReceipt, w.source, e.created);
    var offered := s.(manager := s.manager.(eligible := s.manager.eligible + {r}));
    InvSound(s);
    EligibleEvolves(s.manager, r);
    ManagerKeepsAll(s, offered.manager);
    var move := Transition(Clone, w.taskId, w.scoped, w.lease, r, e.baseline, e.createdPages);
    AcceptedKeeps(offered, move, now, w.lease);
    InvReceipts(s);
    NewReceipt(s, t, r, e);
    var (m, accepted) := Accept(offered.manager, move, now);
    RecordsKeep(offered.(manager := EndReference(m, w.lease),
                minted := if accepted.Ok? then s.minted + {GuardOf(accepted.value)} else s.minted), t);
  }

  lemma SpentReceipt(s: State, t: State, r: Receipt)
    requires ReceiptsSpent(s) && r in s.tokens
    requires t.tokens == s.tokens - {r} && t.deletes == s.deletes + [(r, s.tokens[r])]
    requires t.proofs == s.proofs && t.nextReceipt == s.nextReceipt
    ensures ReceiptsSpent(t)
  {
    hide IssuedOn;
  }

  lemma CleanupManager(s: State, r: Receipt, now: int)
    requires Inv(s) && r.source.Page?
    ensures Inv(s.(manager := Current(s.manager, now)))
    ensures var (m, lease) := BeginReference(Current(s.manager, now), r.source, Some(r), now);
            Inv(s.(manager := m)) && (lease.Ok? ==> Inv(s.(manager := EndReference(m, lease.value))))
  {
    hide Inv, Evolves, Current, BeginReference, EndReference;
    InvSound(s);
    CurrentEvolves(s.manager, now);
    ManagerKeepsAll(s, Current(s.manager, now));
    var seen := s.(manager := Current(s.manager, now));
    InvSound(seen);
    ReferenceEvolves(seen.manager, r.source, Some(r), now);
    var (m, lease) := BeginReference(seen.manager, r.source, Some(r), now);
    ManagerKeepsAll(seen, m);
    if lease.Ok? { EndReferenceKeeps(s.(manager := m), lease.value); }
  }

  lemma LookKeeps(s: State, now: int)
    requires Inv(s)
    ensures Inv(s.(manager := Current(s.manager, now)))
  {
    hide Inv, Evolves, Current;
    InvSound(s);
    CurrentEvolves(s.manager, now);
    ManagerKeepsAll(s, Current(s.manager, now));
  }

  lemma CleanupBegunKeeps(s: State, work: nat, r: Receipt, now: int)
    requires Inv(s)
    ensures Inv(CleanupBegun(s, work, r, now))
  {
    hide Inv, Evolves, Current, BeginReference, EndReference, ReceiptsSpent, Scoped, GuardLive;
    var t := CleanupBegun(s, work, r, now);
    LookKeeps(s, now);
    if r.source.Page? {
      InvReceipts(s);
      CleanupManager(s, r, now);
      var (m, lease) := BeginReference(Current(s.manager, now), r.source, Some(r), now);
      if t.deletes != s.deletes {
        SpentReceipt(s, t, r);
        RecordsKeep(s.(manager := m), t);
      } else if t.lineage != s.lineage && lease.Ok? {
        ReceiptsRead(s, t);
        RecordsKeep(s.(manager := EndReference(m, lease.value)), t);
      }
    }
  }

  lemma CleanupEndedKeeps(s: State, work: nat, cleaned: Option<CleanupEvidence>, now: int)
    requires Inv(s) && work in s.works && s.works[work].cleanup.Some?
    ensures Inv(CleanupEnded(s, work, cleaned, now))
  {
    hide Inv, Evolves, Accept, EndReference, ReceiptsSpent;
    var w := s.works[work];
    var r := w.cleanup.value;
    var t := CleanupEnded(s, work, cleaned, now);
    InvReceipts(s);
    ReceiptsRead(s, t);
    if cleaned.None? || !r.created.Page? || !CleanupVerified(r, cleaned.value) {
      EndReferenceKeeps(s, w.lease);
      RecordsKeep(s.(manager := EndReference(s.manager, w.lease)), t);
    } else {
      var move := Transition(Cleanup, w.taskId, w.scoped, w.lease, r, w.pages, cleaned.value.activePages);
      AcceptedKeeps(s, move, now, w.lease);
      var (m, accepted) := Accept(s.manager, move, now);
      RecordsKeep(s.(manager := EndReference(m, w.lease),
                  minted := if accepted.Ok? then s.minted + {GuardOf(accepted.value)} else s.minted), t);
    }
  }

  // ----- Runs -----

  lemma ManagerStepKeeps(s: State, e: Event)
    requires Inv(s)
    requires e.MintEvent? || e.ReplaceEvent? || e.ClearEvent? || e.BeginExecutionEvent? || e.EndExecutionEvent?
    ensures Inv(Step(s, e))
  {
    hide Inv, Evolves, Mint, Replace, Clear, BeginExecution, EndExecution;
    InvSound(s);
    match e
    case MintEvent(input, taskId, now) =>
      GrantsEvolve(s.manager, input, taskId, now);
      var (m, r) := Mint(s.manager, input, taskId, now);
      GrantedKeeps(s, m, r);
    case ReplaceEvent(input, taskId, now) =>
      GrantsEvolve(s.manager, input, taskId, now);
      var (m, r) := Replace(s.manager, input, taskId, now);
      GrantedKeeps(s, m, r);
    case ClearEvent =>
      ClearEvolves(s.manager);
      ManagerKeepsAll(s, Clear(s.manager).0);
    case BeginExecutionEvent(g, now, later) =>
      ExecutionEvolves(s.manager, g, 0, now, later);
      ManagerKeepsAll(s, BeginExecution(s.manager, g, now, later).0);
    case EndExecutionEvent(lease) =>
      EndExecutionEvolves(s.manager, lease);
      ManagerKeepsAll(s, EndExecution(s.manager, lease));
  }

  lemma ClearEvolves(m: Manager)
    requires Sound(m)
    ensures Evolves(m, Clear(m).0, None)
  {
    hide ActiveSound;
  }

  lemma EndExecutionEvolves(m: Manager, lease: nat)
    requires Sound(m)
    ensures Evolves(m, EndExecution(m, lease), None)
  {
    hide ActiveSound;
  }

  lemma LeaseStepKeeps(s: State, e: Event)
    requires Inv(s)
    requires e.Acquire? || e.StartOperation? || e.StartMutation? || e.EndMutation? || e.EndOperation? || e.CloseLease?
    ensures Inv(Step(s, e))
  {
    hide Inv, Fresh, Dispatched, Landed, GuardLive;
    match e
    case Acquire(id, g, binding, expiresAt, now) =>
      if s.process.None? && id !in s.leases && g in s.minted {
        var l := BrowserLease(g, binding, expiresAt, false, false, false, None);
        LeaseKeeps(s, id, l);
        ProcessIsFree(s.(leases := s.leases[id := l]), Some(id));
      }
    case StartOperation(id, now, trusted) =>
      if id in s.leases {
        LeaseFacts(s, id);
        LeaseKeeps(s, id, s.leases[id].(busy := true));
      }
    case StartMutation(id, now, later, fresh1, fresh2) =>
      if id in s.leases { DispatchedKeeps(s, id, now, later, fresh1, fresh2); }
    case EndMutation(id) =>
      if id in s.leases { LandedKeeps(s, id); }
    case EndOperation(id) =>
      if id in s.leases && s.leases[id].flight.None? {
        LeaseFacts(s, id);
        LeaseKeeps(s, id, s.leases[id].(busy := false));
      }
    case CloseLease(id) =>
      if id in s.leases && !s.leases[id].busy {
        LeaseFacts(s, id);
        LeaseKeeps(s, id, s.leases[id].(closed := true));
        ProcessIsFree(s.(leases := s.leases[id := s.leases[id].(closed := true)]), None);
      }
  }

  lemma LeaseFacts(s: State, id: nat)
    requires Inv(s) && id in s.leases
    ensures s.leases[id].guard in s.minted
    ensures s.leases[id].flight.Some? ==> s.leases[id].busy
  {
    assert FlightHeld(s.manager, s.leases[id]);
  }

  lemma StepKeeps(s: State, e: Event)
    requires Inv(s)
    ensures Inv(Step(s, e))
  {
    hide Inv, Current, CreateBegun, CreateEnded, CleanupBegun, CleanupEnded;
    if e.Look? {
      LookKeeps(s, e.now);
    } else if e.MintEvent? || e.ReplaceEvent? || e.ClearEvent? || e.BeginExecutionEvent? || e.EndExecutionEvent? {
      ManagerStepKeeps(s, e);
    } else if e.BeginCreate? {
      CreateBegunKeeps(s, e.work, e.source, e.now);
    } else if e.EndCreate? {
      if e.work in s.works { CreateEndedKeeps(s, e.work, e.evidence, e.now); }
    } else if e.BeginCleanup? {
      CleanupBegunKeeps(s, e.work, e.receipt, e.now);
    } else if e.EndCleanup? {
      if e.work in s.works && s.works[e.work].cleanup.Some? { CleanupEndedKeeps(s, e.work, e.cleaned, e.now); }
    } else {
      LeaseStepKeeps(s, e);
    }
  }

  lemma {:induction false} ReachableInv(events: seq<Event>)
    ensures Inv(Run(START, events))
    decreases |events|
  {
    hide Inv, Step;
    if events == [] {
      StartInv();
    } else {
      ReachableInv(events[..|events| - 1]);
      StepKeeps(Run(START, events[..|events| - 1]), events[|events| - 1]);
    }
  }

  lemma StartInv()
    ensures Inv(START)
  {
  }
}
