/** What each authority call answers, exactly, and what it leaves behind when it goes through. */
module AuthorityAnswers {
  import opened Prelude
  import opened TaskScope
  import opened TaskAuthority
  import opened AuthorityRuns

  // ----- mint, replace, clear -----

  /** Nobody holds the lineage or a lease. */
  predicate Idle(m: Manager) { !LineageHeld(m) && !Pinned(m) }

  predicate LiveAuthority(m: Manager, now: int) { m.active.Some? && now < m.active.value.grant.expiresAt }

  function Ttl(input: MintInput): int { if input.ttl.Some? then input.ttl.value else DEFAULT_TTL }

  /** The grant an input asks for. */
  function Asked(input: MintInput, taskId: nat, now: int): Grant {
    Grant(taskId, input.mode, input.instruction, now, now + Ttl(input), input.binding, input.observe, input.write,
          input.operations, input.publication)
  }

  /** An input that a grant can be built from. */
  predicate Builds(input: MintInput, taskId: nat, now: int) {
    && input.described && 0 < Ttl(input) <= MAX_TTL && now + Ttl(input) <= MAX_TIME
    && (input.inventory.Some? ==>
          InventoryValid(input.inventory.value) && input.binding == Binding(input.inventory.value.account, input.inventory.value))
    && GrantValid(Asked(input, taskId, now), input.binding, now)
  }

  lemma BuildsExactly(input: MintInput, taskId: nat, token: nat, now: int)
    ensures Build(input, taskId, token, now).Ok? <==> Builds(input, taskId, now)
    ensures Build(input, taskId, token, now).Ok? ==>
              Build(input, taskId, token, now).value == Active(token, Asked(input, taskId, now), input.inventory, None)
    ensures !input.described ==> Build(input, taskId, token, now) == Err(DescriptionInvalid)
    ensures input.described && !(0 < Ttl(input) <= MAX_TTL) ==> Build(input, taskId, token, now) == Err(TtlInvalid)
    ensures input.described && 0 < Ttl(input) <= MAX_TTL && now + Ttl(input) > MAX_TIME ==>
              Build(input, taskId, token, now) == Err(ClockInvalid)
    ensures input.described && 0 < Ttl(input) <= MAX_TTL && now + Ttl(input) <= MAX_TIME && !Builds(input, taskId, now) ==>
              Build(input, taskId, token, now)
              == Err(if input.inventory.Some? && (!InventoryValid(input.inventory.value)
                                                  || input.binding != Binding(input.inventory.value.account, input.inventory.value))
                     then InventoryInvalid else GrantInvalid)
  {
    hide GrantValid, InventoryValid;
  }

  /** The one thing that stands in the way of every change of the authority, if any, in the order it is asked. */
  function Obstacle(m: Manager): Option<Error> {
    if LineageHeld(m) then Some(LineageBusy)
    else if m.dispatch.Some? then Some(MutationInProgress)
    else if m.execution.Some? then Some(ExecutionInProgress)
    else None
  }

  /** A new authority: what was asked for, under a token that no guard has ever carried. */
  predicate TakesOver(m: Manager, next: Manager, a: Active, input: MintInput, taskId: nat, now: int) {
    && a.grant == Asked(input, taskId, now) && a.inventory == input.inventory && a.pending.None?
    && a.token >= m.next && next.active == Some(a) && next.revocation == a.token && next.next > a.token
    && next.reference.None? && next.dispatch.None? && next.execution.None? && next.eligible == m.eligible
  }

  /** Mint goes through if and only if nothing is held, no unexpired authority is active, and its input builds. */
  lemma MintSucceedsExactly(m: Manager, input: MintInput, taskId: nat, now: int)
    requires Sound(m)
    ensures Mint(m, input, taskId, now).1.Ok? <==> Idle(m) && !LiveAuthority(m, now) && Builds(input, taskId, now)
    ensures Mint(m, input, taskId, now).1.Ok? ==>
              TakesOver(m, Mint(m, input, taskId, now).0, Mint(m, input, taskId, now).1.value, input, taskId, now)
    ensures Obstacle(m).Some? ==> Mint(m, input, taskId, now) == (m, Err(Obstacle(m).value))
    ensures Idle(m) && LiveAuthority(m, now) ==> Mint(m, input, taskId, now) == (m, Err(AlreadyActive))
  {
    BuildsExactly(input, taskId, Current(m, now).next, now);
    hide Build, Builds, ActiveSound;
  }

  /** Replace goes through if and only if nothing is held and its input builds; otherwise a live grant stays. */
  lemma ReplaceSucceedsExactly(m: Manager, input: MintInput, taskId: nat, now: int)
    requires Sound(m)
    ensures Replace(m, input, taskId, now).1.Ok? <==> Idle(m) && Builds(input, taskId, now)
    ensures Replace(m, input, taskId, now).1.Ok? ==>
              TakesOver(m, Replace(m, input, taskId, now).0, Replace(m, input, taskId, now).1.value, input, taskId, now)
    ensures Obstacle(m).Some? ==> Replace(m, input, taskId, now) == (m, Err(Obstacle(m).value))
    ensures LiveAuthority(m, now) && Replace(m, input, taskId, now).1.Err? ==> Replace(m, input, taskId, now).0 == m
  {
    BuildsExactly(input, taskId, Current(m, now).next, now);
    hide Build, Builds, ActiveSound;
  }

  /** Clear goes through if and only if nothing is held; then no authority is left and every guard is revoked. */
  lemma ClearSucceedsExactly(m: Manager)
    requires Sound(m)
    ensures Clear(m).1 == if Obstacle(m).Some? then Err(Obstacle(m).value) else Ok(m.active.Some?)
    ensures Obstacle(m).Some? ==> Clear(m).0 == m
    ensures Obstacle(m).None? ==>
              Clear(m).0.active.None? && Clear(m).0.reference.None? && Clear(m).0.revocation >= m.next
              && Clear(m).0.next > Clear(m).0.revocation && Clear(m).0.eligible == m.eligible
  {
    hide ActiveSound;
  }

  /** Over every run: while an unexpired authority is active, no mint touches it or revokes its guard. */
  lemma MintNeverTouchesALiveGrant(events: seq<Event>, input: MintInput, taskId: nat, now: int)
    requires LiveAuthority(Run(START, events).manager, now)
    ensures var s := Run(START, events);
            var t := Step(s, MintEvent(input, taskId, now));
            t.manager == s.manager && t.minted == s.minted
  {
    hide Run, Inv, Mint, Sound, LiveAuthority;
    ReachableInv(events);
    InvSound(Run(START, events));
    MintSucceedsExactly(Run(START, events).manager, input, taskId, now);
    LiveMintChangesNothing(Run(START, events).manager, input, taskId, now);
  }

  lemma LiveMintChangesNothing(m: Manager, input: MintInput, taskId: nat, now: int)
    requires Sound(m) && LiveAuthority(m, now)
    ensures Mint(m, input, taskId, now).0 == m && Mint(m, input, taskId, now).1.Err?
  {
    hide Build, ActiveSound;
  }

  // ----- Leases -----

  /** Why a guard is refused. */
  lemma DeadGuardsAreNamed(m: Manager, g: Guard, now: int, later: int)
    ensures !GuardLive(m, g, now) ==>
              var e := if g.token != m.revocation then Revoked else Expired;
              BeginDispatch(m, g, now, later) == (m, Err(e)) && BeginExecution(m, g, now, later) == (m, Err(e))
    ensures GuardLive(m, g, now) && m.active.Some? && m.dispatch.Some? ==>
              BeginDispatch(m, g, now, later) == (m, Err(MutationInProgress))
    ensures GuardLive(m, g, now) && m.active.Some? && m.execution.Some? ==>
              BeginExecution(m, g, now, later) == (m, Err(ExecutionInProgress))
  {
  }

  /** An execution lease is granted exactly to the live guard of the active authority when no other execution runs. */
  lemma ExecutionGranted(m: Manager, g: Guard, now: int, later: int)
    requires Sound(m)
    ensures BeginExecution(m, g, now, later).1.Ok? <==>
              m.active.Some? && m.execution.None? && GuardLive(m, g, now) && GuardLive(m, g, later)
    ensures var (next, r) := BeginExecution(m, g, now, later);
            && next.active == m.active && next.revocation == m.revocation && next.dispatch == m.dispatch
            && next.reference == m.reference && next.eligible == m.eligible
            && next.execution == (if r.Ok? then Some(r.value) else m.execution)
            && (r.Ok? ==> r.value >= m.next && next.next > r.value)
  {
    hide ActiveSound;
  }

  /** A lease is given back by its holder only, and nothing else moves. */
  lemma LeasesAreGivenBackByTheirHolder(m: Manager, lease: nat)
    ensures EndDispatch(m, lease) == if m.dispatch == Some(lease) then m.(dispatch := None) else m
    ensures EndExecution(m, lease) == if m.execution == Some(lease) then m.(execution := None) else m
    ensures EndReference(m, lease) == if m.reference == Some(lease) then m.(reference := None) else m
    ensures forall other :: m.dispatch == Some(other) && other != lease ==> EndDispatch(m, lease).dispatch == Some(other)
  {
  }

  /** A clone or cleanup may begin: the grant is live, allows both, has no other clone pending, and knows and covers the project. */
  predicate LineageOpen(m: Manager, source: Target, receipt: Option<Receipt>, now: int)
    requires source.Page?
  {
    && m.active.Some? && GuardLive(m, GuardOf(m.active.value), now)
    && MayChange(m.active.value.grant, ReferenceClone, source) && MayChange(m.active.value.grant, ReferenceCleanup, source)
    && m.active.value.pending == receipt
    && m.active.value.inventory.Some? && source.project in m.active.value.inventory.value.owned
    && source.page in m.active.value.inventory.value.owned[source.project]
    && Project(source.project) in m.active.value.grant.write
  }

  /** The lineage lease is granted exactly when none is held and the lineage is open, and then it is new. */
  lemma LineageGranted(m: Manager, source: Target, receipt: Option<Receipt>, now: int)
    requires Sound(m) && source.Page?
    ensures BeginReference(m, source, receipt, now).1.Ok? <==> m.reference.None? && LineageOpen(Current(m, now), source, receipt, now)
    ensures BeginReference(m, source, receipt, now).1.Ok? ==>
              var (next, r) := BeginReference(m, source, receipt, now);
              && next == Current(m, now).(reference := Some(r.value), next := next.next) && r.value >= m.next && next.next > r.value
    ensures m.reference.Some? ==> BeginReference(m, source, receipt, now) == (m, Err(LineageBusy))
    ensures BeginReference(m, source, receipt, now).1.Err? ==>
              BeginReference(m, source, receipt, now).0 == m || BeginReference(m, source, receipt, now).0 == Current(m, now)
  {
    hide MayChange, ActiveSound;
  }

  // ----- Accepted transitions -----

  /** The length and membership tests say exactly that the set of pages gained, or lost, one page other than the source. */
  lemma ExactChangeIsOnePage(direction: Direction, before: seq<nat>, after: seq<nat>, source: nat, changed: nat)
    requires Distinct(before) && Distinct(after)
    ensures ExactChange(direction, before, after, source, changed) <==>
            && source in Ids(before) && source in Ids(after)
            && (if direction.Clone? then changed !in Ids(before) && Ids(after) == Ids(before) + {changed}
                else changed in Ids(before) && Ids(after) == Ids(before) - {changed})
  {
    forall id ensures (id in before <==> id in Ids(before)) && (id in after <==> id in Ids(after)) {
      IdsHas(before, id);
      IdsHas(after, id);
    }
    IdsSize(before);
    IdsSize(after);
    if ExactChange(direction, before, after, source, changed) {
      ExactChangeMeans(direction, before, after, source, changed);
    } else if changed in Ids(before) {
      OneLess(Ids(before), changed);
    }
  }

  lemma OneLess(s: set<nat>, x: nat)
    requires x in s
    ensures |s - {x}| == |s| - 1
  {
  }

  /** A transition is admitted for the holder of the lineage lease, for one page of an owned project and nothing else. */
  predicate Admissible(m: Manager, t: Transition, now: int) {
    && m.active.Some? && GuardLive(m, GuardOf(m.active.value), now) && m.reference == Some(t.lease)
    && m.active.value.grant.taskId == t.taskId && Scoped(m.active.value.grant) == t.scoped
    && ReceiptShaped(t.receipt)
    && m.active.value.pending == (if t.direction.Clone? then None else Some(t.receipt))
    && MayChange(m.active.value.grant, OperationOf(t.direction), t.receipt.source)
    && Within(m.active.value.grant.write, t.receipt.created)
    && m.active.value.inventory.Some? && OnePageMoved(m.active.value.inventory.value, t)
    && (t.direction.Clone? ==> t.receipt in m.eligible)
  }

  /** The listings before and after are the pages of the project, and the inventory stays one in which no page has two owners. */
  predicate OnePageMoved(inv: Inventory, t: Transition)
    requires ReceiptShaped(t.receipt)
  {
    var project := t.receipt.source.project;
    var page := t.receipt.created.page;
    && project in inv.owned && Distinct(t.before) && Distinct(t.after) && Ids(t.before) == inv.owned[project]
    && t.receipt.source.page in inv.owned[project]
    && Ids(t.after) == (if t.direction.Clone? then inv.owned[project] + {page} else inv.owned[project] - {page})
    && (page in inv.owned[project] <==> t.direction.Cleanup?)
    && InventoryValid(inv.(owned := inv.owned[project := Ids(t.after)]))
  }

  /** A rebinding goes through if and only if nothing is pinned and the transition is admissible for the authority as it stands. */
  lemma RebindingSucceedsExactly(m: Manager, t: Transition, now: int)
    requires Sound(m)
    ensures Accept(m, t, now).1.Ok? <==> !Pinned(m) && Admissible(Current(m, now), t, now)
  {
    AcceptMoves(m, t, now);
    AdmissibleExactly(Current(m, now), t, now);
    hide Accept, Admissible, TransitionError, MovedBy, ActiveSound, Current;
  }

  lemma AdmissibleExactly(m: Manager, t: Transition, now: int)
    ensures TransitionError(m, t, now).None? <==> Admissible(m, t, now)
  {
    hide ExactChange, Ids, Distinct, InventoryValid, MayChange, Within, Scoped, GuardLive;
    if Distinct(t.before) && Distinct(t.after) && ReceiptShaped(t.receipt) {
      ExactChangeIsOnePage(t.direction, t.before, t.after, t.receipt.source.page, t.receipt.created.page);
    }
  }

  // ----- Browser leases -----

  /** A mutation is sent exactly by a lease that is fresh before and after it takes the dispatch lease and has not sent before. */
  predicate MaySend(s: State, id: nat, now: int, later: int, fresh1: bool, fresh2: bool) {
    && id in s.leases && s.leases[id].busy && s.leases[id].flight.None? && !s.leases[id].slotUsed && !s.leases[id].closed
    && s.process == Some(id) && s.leases[id].guard.grant.binding == s.leases[id].binding && fresh1 && fresh2
    && GuardLive(s.manager, s.leases[id].guard, now) && GuardLive(s.manager, s.leases[id].guard, later)
    && now <= s.leases[id].expiresAt && later <= s.leases[id].expiresAt
    && s.manager.active.Some? && s.manager.dispatch.None?
  }

  lemma MutationIsSentExactly(s: State, id: nat, now: int, later: int, fresh1: bool, fresh2: bool)
    ensures var t := Step(s, StartMutation(id, now, later, fresh1, fresh2));
            && t.sent == (if MaySend(s, id, now, later, fresh1, fresh2) then s.sent + [id] else s.sent)
            && (!MaySend(s, id, now, later, fresh1, fresh2) ==> t.leases == s.leases && t.manager.dispatch == s.manager.dispatch)
            && (MaySend(s, id, now, later, fresh1, fresh2) ==>
                  t.leases == s.leases[id := s.leases[id].(slotUsed := true, flight := t.manager.dispatch)]
                  && t.manager.dispatch == Some(s.manager.next))
  {
    hide Dispatched;
    if id in s.leases {
      if MaySend(s, id, now, later, fresh1, fresh2) {
        DispatchGoes(s, id, now, later, fresh1, fresh2);
      } else {
        DispatchStops(s, id, now, later, fresh1, fresh2);
      }
    }
  }

  lemma DispatchGoes(s: State, id: nat, now: int, later: int, fresh1: bool, fresh2: bool)
    requires MaySend(s, id, now, later, fresh1, fresh2)
    ensures var t := Dispatched(s, id, now, later, fresh1, fresh2);
            && t.sent == s.sent + [id] && t.manager.dispatch == Some(s.manager.next)
            && t.leases == s.leases[id := s.leases[id].(slotUsed := true, flight := Some(s.manager.next))]
  {
    assert GuardLive(s.manager.(dispatch := Some(s.manager.next), next := s.manager.next + 1), s.leases[id].guard, later);
    hide GuardLive;
  }

  lemma DispatchStops(s: State, id: nat, now: int, later: int, fresh1: bool, fresh2: bool)
    requires id in s.leases && !MaySend(s, id, now, later, fresh1, fresh2)
    ensures var t := Dispatched(s, id, now, later, fresh1, fresh2);
            t.sent == s.sent && t.leases == s.leases && t.manager.dispatch == s.manager.dispatch
  {
    LiveReads(s.manager, s.leases[id].guard, later);
    hide GuardLive;
  }

  lemma LiveReads(m: Manager, g: Guard, now: int)
    ensures forall other: Manager :: other.revocation == m.revocation ==> GuardLive(other, g, now) == GuardLive(m, g, now)
  {
  }

  /** Acquiring takes the one process slot for a live minted guard; closing gives it back, but not during an operation. */
  lemma ProcessSlotExactly(s: State, id: nat, guard: Guard, binding: Binding, expiresAt: int, now: int)
    ensures var t := Step(s, Acquire(id, guard, binding, expiresAt, now));
            if s.process.None? && id !in s.leases && guard in s.minted && GuardLive(s.manager, guard, now) then
              && t.process == Some(id)
              && t.leases == s.leases[id := BrowserLease(guard, binding, expiresAt, false, false, false, None)]
            else t == s
    ensures id in s.leases ==>
              var t := Step(s, CloseLease(id));
              if s.leases[id].closed || s.leases[id].busy then t == s
              else t.leases == s.leases[id := s.leases[id].(closed := true)]
                   && t.process == (if s.process == Some(id) then None else s.process)
  {
  }

  // ----- Reference clones and cleanups -----

  /** The state after a clone was started: its work remembers the grant it started under. */
  predicate CloneStarted(s: State, t: State, work: nat, source: Target, a: Active) {
    && t.works.Keys == s.works.Keys + {work} && work in t.works && t.manager.reference == Some(t.works[work].lease)
    && t.works[work].taskId == a.grant.taskId && t.works[work].scoped == Scoped(a.grant)
    && t.works[work].source == source && t.works[work].cleanup.None?
  }

  lemma CloneBegins(s: State, work: nat, source: Target, now: int)
    requires Sound(s.manager) && work !in s.works && source.Page?
    ensures var t := CreateBegun(s, work, source, now);
            var m := Current(s.manager, now);
            if s.manager.reference.None? && LineageOpen(m, source, None, now) then CloneStarted(s, t, work, source, m.active.value)
            else t.works == s.works
  {
    LineageGranted(s.manager, source, None, now);
    hide Sound, BeginReference, Scoped, Current, GuardLive, MayChange;
  }

  /** A clone starts exactly for an open lineage that nobody holds. */
  lemma CloneStartsExactly(s: State, work: nat, source: Target, now: int)
    requires Inv(s) && work !in s.works && source.Page?
    ensures var t := Step(s, BeginCreate(work, source, now));
            var m := Current(s.manager, now);
            if s.manager.reference.None? && LineageOpen(m, source, None, now) then CloneStarted(s, t, work, source, m.active.value)
            else t.works == s.works
  {
    InvSound(s);
    CloneBegins(s, work, source, now);
    hide Inv, CreateBegun, LineageOpen, CloneStarted, Current;
  }

  /** A delete is sent exactly for an unspent receipt of the same task and scope, under an open lineage that waits for it. */
  predicate MayDelete(s: State, work: nat, r: Receipt, now: int) {
    && work !in s.works && r in s.lineage && r in s.tokens && r.source.Page? && s.manager.reference.None?
    && LineageOpen(Current(s.manager, now), r.source, Some(r), now)
    && Current(s.manager, now).active.value.grant.taskId == s.lineage[r].taskId
    && Scoped(Current(s.manager, now).active.value.grant) == s.lineage[r].scoped
  }

  predicate DeleteSent(s: State, t: State, work: nat, r: Receipt)
    requires r in s.tokens && r in s.lineage
  {
    && t.deletes == s.deletes + [(r, s.tokens[r])] && t.tokens == s.tokens - {r} && t.lineage == s.lineage - {r}
    && work in t.works && t.works[work].cleanup == Some(r) && t.works[work].pages == s.lineage[r].createdPages
  }

  lemma CleanupBegins(s: State, work: nat, r: Receipt, now: int)
    requires Sound(s.manager)
    ensures var t := CleanupBegun(s, work, r, now);
            if MayDelete(s, work, r, now) then DeleteSent(s, t, work, r)
            else t.deletes == s.deletes && t.tokens == s.tokens && t.works == s.works
  {
    LookTwice(s.manager, now);
    if r.source.Page? {
      CurrentSound(s.manager, now);
      LineageGranted(Current(s.manager, now), r.source, Some(r), now);
      HeldStays(s.manager, r.source, Some(r), now);
    }
    hide Sound, BeginReference, Scoped, GuardLive, Current, MayChange;
  }

  lemma DeleteIsSentExactly(s: State, work: nat, r: Receipt, now: int)
    requires Inv(s)
    ensures var t := Step(s, BeginCleanup(work, r, now));
            if MayDelete(s, work, r, now) then DeleteSent(s, t, work, r)
            else t.deletes == s.deletes && t.tokens == s.tokens && t.works == s.works
  {
    InvSound(s);
    CleanupBegins(s, work, r, now);
    hide Inv, CleanupBegun, DeleteSent;
  }

  lemma LookTwice(m: Manager, now: int)
    ensures Current(Current(m, now), now) == Current(m, now)
  {
  }

  /** Looking frees a lineage lease only together with the authority, under which nothing is open then. */
  lemma HeldStays(m: Manager, source: Target, receipt: Option<Receipt>, now: int)
    requires source.Page?
    ensures LineageOpen(Current(m, now), source, receipt, now) ==> Current(m, now).reference == m.reference
  {
  }

  /** Clone evidence is good exactly when it shows one new unpublished page beside the source, with the source's records copied anew. */
  lemma CloneEvidenceExactly(source: Target, e: CreateEvidence)
    ensures CreateVerified(source, e) <==>
            && source.Page? && e.created.Page? && e.source == source && e.created.project == source.project
            && e.created.page != source.page && e.parity && e.unpublished
            && Unique(e.baseline) && Unique(e.createdPages) && Unique(e.baselineOrder) && Unique(e.createdOrder)
            && |e.baselineOrder| == |e.baseline| && |e.createdOrder| == |e.createdPages|
            && source.page in Ids(e.baseline) && e.created.page !in Ids(e.baseline)
            && Ids(e.createdPages) == Ids(e.baseline) + {e.created.page}
            && Unique(e.sourceRecords) && Unique(e.createdRecords) && |e.createdRecords| == |e.sourceRecords|
            && Ids(e.createdRecords) !! Ids(e.sourceRecords)
  {
    forall id
      ensures (id in e.baseline <==> id in Ids(e.baseline)) && (id in e.createdPages <==> id in Ids(e.createdPages))
      ensures (id in e.sourceRecords <==> id in Ids(e.sourceRecords)) && (id in e.createdRecords <==> id in Ids(e.createdRecords))
    {
      IdsHas(e.baseline, id);
      IdsHas(e.createdPages, id);
      IdsHas(e.sourceRecords, id);
      IdsHas(e.createdRecords, id);
    }
    if source.Page? && e.created.Page? && Unique(e.baseline) && Unique(e.createdPages) {
      ExactChangeIsOnePage(Clone, e.baseline, e.createdPages, source.page, e.created.page);
      if CreateVerified(source, e) { VerifiedCloneIsExact(source, e); }
    }
    hide Ids, Distinct;
  }

  /** What a finished clone leaves: a receipt with its token and proof exactly on good evidence, its lineage exactly when the authority accepts it. */
  lemma CloneEndsExactly(s: State, work: nat, evidence: Option<CreateEvidence>, now: int)
    requires work in s.works && s.works[work].cleanup.None?
    ensures var w := s.works[work];
            var t := Step(s, EndCreate(work, evidence, now));
            && t.works == s.works - {work} && t.manager.reference != Some(w.lease) && t.deletes == s.deletes
            && (if evidence.None? || !CreateVerified(w.source, evidence.value) then
                  && t.tokens == s.tokens && t.proofs == s.proofs && t.lineage == s.lineage && t.nextReceipt == s.nextReceipt
                  && t.manager == EndReference(s.manager, w.lease) && t.minted == s.minted
                else
                  var e := evidence.value;
                  var r := Receipt(s.nextReceipt, w.source, e.created);
                  var accepted := Accept(s.manager.(eligible := s.manager.eligible + {r}),
                                         Transition(Clone, w.taskId, w.scoped, w.lease, r, e.baseline, e.createdPages), now);
                  && t.tokens == s.tokens[r := e.token] && t.proofs == s.proofs[r := e] && t.nextReceipt == s.nextReceipt + 1
                  && t.manager == EndReference(accepted.0, w.lease)
                  && (accepted.1.Ok? ==> t.lineage == s.lineage[r := Lineage(w.taskId, w.scoped, e.createdPages)]
                                         && t.minted == s.minted + {GuardOf(accepted.1.value)})
                  && (accepted.1.Err? ==> t.lineage == s.lineage && t.minted == s.minted))
  {
    hide Accept, CreateVerified;
  }

  /** A finished cleanup gives its lease back; the authority is offered the smaller listing exactly when the page is shown to be gone. */
  lemma CleanupEndsExactly(s: State, work: nat, cleaned: Option<CleanupEvidence>, now: int)
    requires work in s.works && s.works[work].cleanup.Some?
    ensures var w := s.works[work];
            var r := w.cleanup.value;
            var t := Step(s, EndCleanup(work, cleaned, now));
            var gone := cleaned.Some? && r.created.Page? && cleaned.value.source == r.source
                        && cleaned.value.removed == r.created.page && cleaned.value.absent
                        && r.created.page !in cleaned.value.activePages;
            && t.works == s.works - {work} && t.tokens == s.tokens && t.lineage == s.lineage && t.deletes == s.deletes
            && t.manager.reference != Some(w.lease)
            && (if !gone then t.manager == EndReference(s.manager, w.lease) && t.minted == s.minted
                else
                  var accepted := Accept(s.manager, Transition(Cleanup, w.taskId, w.scoped, w.lease, r, w.pages,
                                                               cleaned.value.activePages), now);
                  && t.manager == EndReference(accepted.0, w.lease)
                  && t.minted == (if accepted.1.Ok? then s.minted + {GuardOf(accepted.1.value)} else s.minted))
  {
    hide Accept;
  }
}
