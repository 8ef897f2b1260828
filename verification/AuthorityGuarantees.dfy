/** What holds in every state that any interleaving of the authority can reach. */
module AuthorityGuarantees {
  import opened Prelude
  import opened TaskScope
  import opened TaskAuthority
  import opened AuthorityRuns

  predicate InFlight(s: State, id: nat) {
    id in s.leases && s.leases[id].flight.Some?
  }

  /**
   While a browser lease is sending its mutation, its guard is the guard of the active grant,
   every other guard ever issued is revoked, and no other lease is sending anything.
   */
  lemma MutationsArePinned(events: seq<Event>, id: nat)
    requires InFlight(Run(START, events), id)
    ensures var s := Run(START, events);
            && s.manager.active.Some?
            && s.leases[id].guard == GuardOf(s.manager.active.value)
            && s.manager.dispatch == s.leases[id].flight
            && (forall g :: g in s.minted && g != s.leases[id].guard ==> g.token != s.manager.revocation)
            && (forall other :: InFlight(s, other) ==> other == id)
  {
    hide Run, Sound, SentOnce, ReceiptsSpent;
    ReachableInv(events);
    var s := Run(START, events);
    assert FlightHeld(s.manager, s.leases[id]);
    assert s.leases[id].guard in s.minted;
  }

  /**
   However long a mutation is under way and whatever else happens, the grant, its guard and
   the dispatch lease are what they were when it was sent.
   */
  lemma {:induction false} MutationsRunInsideOneGrant(first: seq<Event>, more: seq<Event>, id: nat)
    requires InFlight(Run(START, first), id)
    requires forall k :: 0 <= k < |more| ==> more[k] != EndMutation(id)
    ensures var s := Run(START, first);
            var t := Run(START, first + more);
            && InFlight(t, id) && t.leases[id].flight == s.leases[id].flight
            && t.manager.active == s.manager.active && t.manager.revocation == s.manager.revocation
    decreases |more|
  {
    hide Run, Inv, Step;
    if more == [] {
      assert first + more == first;
    } else {
      var front := more[..|more| - 1];
      MutationsRunInsideOneGrant(first, front, id);
      ReachableInv(first + front);
      RunSplits(START, first, more);
      HeldThroughout(Run(START, first + front), more[|more| - 1], id);
    }
  }

  // ----- One step of the manager inside one step of the system -----

  lemma DispatchedEvolves(s: State, id: nat, now: int, later: int, fresh1: bool, fresh2: bool)
    requires Sound(s.manager) && id in s.leases
    ensures Evolves(s.manager, Dispatched(s, id, now, later, fresh1, fresh2).manager, None)
  {
    hide Evolves, Fresh, BeginDispatch, EndDispatch, Sound;
    SelfEvolves(s.manager);
    DispatchEvolves(s.manager, s.leases[id].guard, 0, now, later);
    var (m, lease) := BeginDispatch(s.manager, s.leases[id].guard, now, later);
    assert Evolves(s.manager, m, None);
  }

  lemma SelfEvolves(m: Manager)
    requires Sound(m)
    ensures Evolves(m, m, None)
  {
    hide ActiveSound;
  }

  lemma CreateEvolves(s: State, work: nat, source: Target, now: int)
    requires Sound(s.manager)
    ensures Evolves(s.manager, CreateBegun(s, work, source, now).manager, None)
  {
    hide Evolves, BeginReference, Sound, Scoped;
    SelfEvolves(s.manager);
    if source.Page? { ReferenceEvolves(s.manager, source, None, now); }
  }

  lemma EndsEvolve(m: Manager, lease: nat)
    requires Sound(m)
    ensures Evolves(m, EndReference(m, lease), None) && Evolves(m, EndExecution(m, lease), None)
  {
    hide ActiveSound;
  }

  lemma CreateEndedEvolves(s: State, work: nat, evidence: Option<CreateEvidence>, now: int) returns (issued: Option<Active>)
    requires Sound(s.manager) && work in s.works
    ensures Evolves(s.manager, CreateEnded(s, work, evidence, now).manager, issued)
    ensures issued.Some? ==> s.manager.active.Some? && s.manager.active.value.pending.None?
  {
    hide Evolves, Accept, EndReference, CreateVerified, Sound, MovedBy, TransitionError, Scoped;
    var w := s.works[work];
    issued := None;
    EndsEvolve(s.manager, w.lease);
    if evidence.Some? && CreateVerified(w.source, evidence.value) {
      var e := evidence.value;
      var r := Receipt(s.nextReceipt, w.source, e.created);
      var offered := s.manager.(eligible := s.manager.eligible + {r});
      EligibleEvolves(s.manager, r);
      EvolvesSound(s.manager, offered, None);
      var move := Transition(Clone, w.taskId, w.scoped, w.lease, r, e.baseline, e.createdPages);
      AcceptEvolves(offered, move, now, w.lease);
      AcceptMoves(offered, move, now);
      if Accept(offered, move, now).1.Ok? {
        issued := Some(Accept(offered, move, now).1.value);
        MovedPending(offered.active.value, issued.value, move);
      }
      TokenBelow(s.manager);
      EvolvesTwice(s.manager, offered, EndReference(Accept(offered, move, now).0, w.lease), issued);
    }
  }

  lemma TokenBelow(m: Manager)
    requires Sound(m)
    ensures m.revocation < m.next
  {
  }

  lemma MovedPending(a: Active, b: Active, t: Transition)
    requires MovedBy(a, b, t)
    ensures a.pending == (if t.direction.Clone? then None else Some(t.receipt))
    ensures b.pending == (if t.direction.Clone? then Some(t.receipt) else None)
  {
  }

  lemma CleanupBegunEvolves(s: State, work: nat, r: Receipt, now: int)
    requires Sound(s.manager)
    ensures Evolves(s.manager, CleanupBegun(s, work, r, now).manager, None)
  {
    hide Evolves, Current, BeginReference, EndReference, Sound, Scoped, GuardLive;
    CurrentEvolves(s.manager, now);
    var seen := Current(s.manager, now);
    EvolvesSound(s.manager, seen, None);
    TokenBelow(s.manager);
    if r.source.Page? {
      ReferenceEvolves(seen, r.source, Some(r), now);
      var (m, lease) := BeginReference(seen, r.source, Some(r), now);
      EvolvesTwice(s.manager, seen, m, None);
      if lease.Ok? {
        EvolvesSound(seen, m, None);
        EndsEvolve(m, lease.value);
        EvolvesTwice(s.manager, m, EndReference(m, lease.value), None);
      }
    }
  }

  lemma CleanupEndedEvolves(s: State, work: nat, cleaned: Option<CleanupEvidence>, now: int) returns (issued: Option<Active>)
    requires Sound(s.manager) && work in s.works && s.works[work].cleanup.Some?
    ensures Evolves(s.manager, CleanupEnded(s, work, cleaned, now).manager, issued)
    ensures issued.Some? ==> s.manager.active.Some? && s.manager.active.value.pending == s.works[work].cleanup
                             && issued.value.pending.None? && Scoped(issued.value.grant) == Scoped(s.manager.active.value.grant)
  {
    hide Evolves, Accept, EndReference, Sound, MovedBy, TransitionError, Scoped;
    var w := s.works[work];
    var r := w.cleanup.value;
    issued := None;
    EndsEvolve(s.manager, w.lease);
    if cleaned.Some? && r.created.Page? && CleanupVerified(r, cleaned.value) {
      var move := Transition(Cleanup, w.taskId, w.scoped, w.lease, r, w.pages, cleaned.value.activePages);
      AcceptEvolves(s.manager, move, now, w.lease);
      AcceptMoves(s.manager, move, now);
      if Accept(s.manager, move, now).1.Ok? {
        issued := Some(Accept(s.manager, move, now).1.value);
        MovedPending(s.manager.active.value, issued.value, move);
      }
    }
  }

  lemma LeaseStepEvolves(s: State, e: Event)
    requires Sound(s.manager)
    requires e.Acquire? || e.StartOperation? || e.StartMutation? || e.EndOperation? || e.CloseLease?
    ensures Evolves(s.manager, Step(s, e).manager, None)
  {
    hide Evolves, Fresh, Dispatched, GuardLive, Sound;
    SelfEvolves(s.manager);
    if e.StartMutation? && e.id in s.leases { DispatchedEvolves(s, e.id, e.now, e.later, e.fresh1, e.fresh2); }
  }

  lemma GrantStepEvolves(s: State, e: Event) returns (issued: Option<Active>)
    requires Sound(s.manager)
    requires e.MintEvent? || e.ReplaceEvent? || e.ClearEvent? || e.BeginExecutionEvent? || e.EndExecutionEvent?
    ensures Evolves(s.manager, Step(s, e).manager, issued)
    ensures issued.Some? ==> e.MintEvent? || e.ReplaceEvent?
  {
    hide Evolves, Mint, Replace, Clear, BeginExecution, EndExecution, Sound;
    SelfEvolves(s.manager);
    issued := None;
    if e.MintEvent? {
      GrantsEvolve(s.manager, e.input, e.taskId, e.now);
      var r := Mint(s.manager, e.input, e.taskId, e.now).1;
      if r.Ok? { issued := Some(r.value); }
    } else if e.ReplaceEvent? {
      GrantsEvolve(s.manager, e.input, e.taskId, e.now);
      var r := Replace(s.manager, e.input, e.taskId, e.now).1;
      if r.Ok? { issued := Some(r.value); }
    } else if e.ClearEvent? {
      ClearEvolves(s.manager);
    } else if e.BeginExecutionEvent? {
      ExecutionEvolves(s.manager, e.guard, 0, e.now, e.later);
    } else {
      EndsEvolve(s.manager, e.lease);
    }
  }

  /** Every event but the end of a mutation moves the authority in one of the three allowed ways. */
  lemma StepEvolves(s: State, e: Event) returns (issued: Option<Active>)
    requires Sound(s.manager) && !e.EndMutation?
    ensures Evolves(s.manager, Step(s, e).manager, issued)
    ensures issued.Some? ==> e.MintEvent? || e.ReplaceEvent? || e.EndCreate? || e.EndCleanup?
    ensures issued.Some? && e.EndCreate? ==> s.manager.active.Some? && s.manager.active.value.pending.None?
    ensures issued.Some? && e.EndCleanup? ==>
              && e.work in s.works && s.manager.active.Some? && s.manager.active.value.pending == s.works[e.work].cleanup
              && issued.value.pending.None? && Scoped(issued.value.grant) == Scoped(s.manager.active.value.grant)
  {
    hide Evolves, Current, CreateBegun, CreateEnded, CleanupBegun, CleanupEnded, Sound, Scoped;
    SelfEvolves(s.manager);
    issued := None;
    if e.Look? {
      CurrentEvolves(s.manager, e.now);
    } else if e.MintEvent? || e.ReplaceEvent? || e.ClearEvent? || e.BeginExecutionEvent? || e.EndExecutionEvent? {
      issued := GrantStepEvolves(s, e);
    } else if e.BeginCreate? {
      CreateEvolves(s, e.work, e.source, e.now);
    } else if e.EndCreate? {
      if e.work in s.works && s.works[e.work].cleanup.None? { issued := CreateEndedEvolves(s, e.work, e.evidence, e.now); }
    } else if e.BeginCleanup? {
      CleanupBegunEvolves(s, e.work, e.receipt, e.now);
    } else if e.EndCleanup? {
      if e.work in s.works && s.works[e.work].cleanup.Some? { issued := CleanupEndedEvolves(s, e.work, e.cleaned, e.now); }
    } else {
      LeaseStepEvolves(s, e);
    }
  }

  lemma EvolvesQuietly(m: Manager, next: Manager, issued: Option<Active>)
    requires Sound(m) && Evolves(m, next, issued) && m.dispatch.Some?
    ensures next.active == m.active && next.revocation == m.revocation && next.dispatch == m.dispatch
  {
    hide ActiveSound;
  }

  predicate LeaseEvent(e: Event) {
    e.Acquire? || e.StartOperation? || e.StartMutation? || e.EndMutation? || e.EndOperation? || e.CloseLease?
  }

  lemma CreateLeavesLeases(s: State, work: nat, source: Target, evidence: Option<CreateEvidence>, now: int)
    ensures CreateBegun(s, work, source, now).leases == s.leases
    ensures work in s.works ==> CreateEnded(s, work, evidence, now).leases == s.leases
  {
    hide BeginReference, EndReference, Accept, Scoped, CreateVerified;
  }

  lemma CleanupLeavesLeases(s: State, work: nat, r: Receipt, now: int)
    ensures CleanupBegun(s, work, r, now).leases == s.leases
  {
    hide Current, BeginReference, EndReference, Scoped, GuardLive;
  }

  lemma CleanupEndLeavesLeases(s: State, work: nat, cleaned: Option<CleanupEvidence>, now: int)
    requires work in s.works && s.works[work].cleanup.Some?
    ensures CleanupEnded(s, work, cleaned, now).leases == s.leases
  {
    hide EndReference, Accept, CleanupVerified;
  }

  lemma LeasesUntouched(s: State, e: Event)
    requires !LeaseEvent(e)
    ensures Step(s, e).leases == s.leases
  {
    hide Current, Mint, Replace, Clear, BeginExecution, EndExecution, CreateBegun, CreateEnded, CleanupBegun, CleanupEnded,
    Scoped, GuardLive;
    if e.BeginCreate? {
      CreateLeavesLeases(s, e.work, e.source, None, e.now);
    } else if e.EndCreate? {
      CreateLeavesLeases(s, e.work, Project(0), e.evidence, e.now);
    } else if e.BeginCleanup? {
      CleanupLeavesLeases(s, e.work, e.receipt, e.now);
    } else if e.EndCleanup? && e.work in s.works && s.works[e.work].cleanup.Some? {
      CleanupEndLeavesLeases(s, e.work, e.cleaned, e.now);
    }
  }

  lemma FlightStays(s: State, e: Event, id: nat)
    requires Inv(s) && InFlight(s, id) && e != EndMutation(id)
    ensures InFlight(Step(s, e), id) && Step(s, e).leases[id].flight == s.leases[id].flight
    ensures e.EndMutation? ==> Step(s, e).manager == s.manager
  {
    hide Sound, GuardsKnown, SentOnce, ReceiptsSpent;
    if LeaseEvent(e) {
      assert FlightHeld(s.manager, s.leases[id]);
      LeaseEventKeepsFlight(s, e, id);
    } else {
      hide Step;
      LeasesUntouched(s, e);
    }
  }

  lemma LeaseEventKeepsFlight(s: State, e: Event, id: nat)
    requires LeaseEvent(e) && e != EndMutation(id) && FlightsHeld(s.manager, s.leases, s.minted)
    requires InFlight(s, id) && FlightHeld(s.manager, s.leases[id])
    ensures InFlight(Step(s, e), id) && Step(s, e).leases[id].flight == s.leases[id].flight
    ensures e.EndMutation? ==> Step(s, e).manager == s.manager
  {
    hide Fresh, GuardLive, Dispatched;
    if e.StartMutation? && e.id in s.leases { DispatchKeepsFlight(s, e.id, e.now, e.later, e.fresh1, e.fresh2, id); }
  }

  lemma DispatchKeepsFlight(s: State, other: nat, now: int, later: int, fresh1: bool, fresh2: bool, id: nat)
    requires InFlight(s, id) && other in s.leases
    ensures var t := Dispatched(s, other, now, later, fresh1, fresh2);
            InFlight(t, id) && t.leases[id].flight == s.leases[id].flight
  {
    hide Fresh, BeginDispatch, EndDispatch;
  }

  lemma HeldThroughout(s: State, e: Event, id: nat)
    requires Inv(s) && InFlight(s, id) && e != EndMutation(id)
    ensures InFlight(Step(s, e), id) && Step(s, e).leases[id].flight == s.leases[id].flight
    ensures Step(s, e).manager.active == s.manager.active && Step(s, e).manager.revocation == s.manager.revocation
  {
    hide Step, Inv, Evolves, Sound;
    FlightStays(s, e, id);
    InvSound(s);
    assert s.manager.dispatch.Some? by { FlightPins(s, id); }
    if !e.EndMutation? {
      var issued := StepEvolves(s, e);
      EvolvesQuietly(s.manager, Step(s, e).manager, issued);
    }
  }

  lemma FlightPins(s: State, id: nat)
    requires Inv(s) && InFlight(s, id)
    ensures s.manager.dispatch.Some?
  {
    hide Sound, GuardsKnown, SentOnce, ReceiptsSpent;
    assert FlightHeld(s.manager, s.leases[id]);
  }

  /** Each browser lease sends at most one mutation. */
  lemma OneMutationPerLease(events: seq<Event>, j: nat, k: nat)
    requires j < k < |Run(START, events).sent|
    ensures Run(START, events).sent[j] != Run(START, events).sent[k]
  {
    hide Run, Sound, GuardsKnown, FlightsHeld, ReceiptsSpent;
    ReachableInv(events);
  }

  /**
   Each receipt leads to at most one delete, sent with the transport's own token for the clone
   that verified evidence showed and that the receipt names.
   */
  lemma DeletesAreReceiptBound(events: seq<Event>, j: nat, k: nat)
    requires j < |Run(START, events).deletes| && k < |Run(START, events).deletes|
    ensures var d := Run(START, events).deletes;
            && d[j].0 in Run(START, events).proofs
            && IssuedOn(d[j].0, Run(START, events).proofs[d[j].0])
            && d[j].1 == Run(START, events).proofs[d[j].0].token
            && (d[j].0 == d[k].0 ==> j == k)
  {
    hide Run, Sound, GuardsKnown, FlightsHeld, SentOnce, IssuedOn;
    ReachableInv(events);
  }

  // ----- Revocation -----

  /** The current token stays, or a token nobody has seen before replaces it. */
  lemma StepRevocation(s: State, e: Event)
    requires Inv(s)
    ensures var m := s.manager;
            var next := Step(s, e).manager;
            && m.next <= next.next && (next.revocation == m.revocation || next.revocation >= m.next)
  {
    hide Step, Inv, Evolves, Sound;
    InvSound(s);
    if e.EndMutation? {
      LandingKeepsToken(s, e);
    } else {
      var issued := StepEvolves(s, e);
      EvolvesToken(s.manager, Step(s, e).manager, issued);
    }
  }

  lemma LandingKeepsToken(s: State, e: Event)
    requires e.EndMutation?
    ensures var next := Step(s, e).manager;
            next.next == s.manager.next && next.revocation == s.manager.revocation && next.active == s.manager.active
  {
  }

  lemma EvolvesToken(m: Manager, next: Manager, issued: Option<Active>)
    requires Evolves(m, next, issued)
    ensures m.next <= next.next && (next.revocation == m.revocation || next.revocation >= m.next)
  {
    hide Sound;
  }

  lemma RunSplits(s: State, first: seq<Event>, more: seq<Event>)
    requires more != []
    ensures Run(s, first + more) == Step(Run(s, first + more[..|more| - 1]), more[|more| - 1])
  {
    assert (first + more)[..|first + more| - 1] == first + more[..|more| - 1];
  }

  /** A guard that is revoked once stays revoked, and tokens are never used again. */
  lemma {:induction false} RevocationIsPermanent(first: seq<Event>, more: seq<Event>, g: Guard)
    requires g in Run(START, first).minted && g.token != Run(START, first).manager.revocation
    ensures g.token != Run(START, first + more).manager.revocation
    ensures g.token < Run(START, first + more).manager.next
    decreases |more|
  {
    hide Run, Step, Sound, FlightsHeld, SentOnce, ReceiptsSpent;
    if more == [] {
      assert first + more == first;
      ReachableInv(first);
    } else {
      var front := more[..|more| - 1];
      RevocationIsPermanent(first, front, g);
      ReachableInv(first + front);
      RunSplits(START, first, more);
      StepRevocation(Run(START, first + front), more[|more| - 1]);
    }
  }

  // ----- Lineage -----

  /** The receipt of the clone that waits for its cleanup. */
  predicate Awaits(s: State, r: Receipt) {
    s.manager.active.Some? && s.manager.active.value.pending == Some(r)
  }

  function Clock(e: Event): Option<int> {
    match e
    case Look(now) => Some(now)
    case BeginCreate(_, _, now) => Some(now)
    case EndCreate(_, _, now) => Some(now)
    case BeginCleanup(_, _, now) => Some(now)
    case EndCleanup(_, _, now) => Some(now)
    case _ => None
  }

  predicate CleansUp(s: State, e: Event, r: Receipt) {
    e.EndCleanup? && e.work in s.works && s.works[e.work].cleanup == Some(r)
  }

  /** The event ends the wait: the expired authority is dropped, or the very clone is verified gone under the same grant. */
  predicate EndsWait(s: State, e: Event, r: Receipt) {
    var t := Step(s, e);
    && s.manager.active.Some?
    && (|| (t.manager.active.None? && Clock(e).Some? && Clock(e).value >= s.manager.active.value.grant.expiresAt)
        || (CleansUp(s, e, r) && t.manager.active.Some? && t.manager.active.value.pending.None?
            && Scoped(t.manager.active.value.grant) == Scoped(s.manager.active.value.grant)))
  }

  /** The wait ended at event `k` of `more`, and until then the grant was what it had been. */
  predicate WaitEndedAt(first: seq<Event>, more: seq<Event>, r: Receipt, k: nat)
    requires k < |more|
  {
    && Run(START, first + more[..k]).manager.active == Run(START, first).manager.active
    && EndsWait(Run(START, first + more[..k]), more[k], r)
  }

  /**
   While a clone waits for its cleanup the active grant stays as it is, over any run, until the
   authority is found expired or that very clone is verified gone; task, scope and expiry never change.
   */
  lemma {:induction false} PendingCloneHoldsTheGrant(first: seq<Event>, more: seq<Event>, r: Receipt)
    requires Awaits(Run(START, first), r)
    ensures || Run(START, first + more).manager.active == Run(START, first).manager.active
            || exists k: nat | k < |more| :: WaitEndedAt(first, more, r, k)
    decreases |more|
  {
    hide Run, Step, EndsWait;
    if more == [] {
      assert first + more == first;
    } else {
      var n := |more| - 1;
      var front := more[..n];
      PendingCloneHoldsTheGrant(first, front, r);
      if Run(START, first + front).manager.active == Run(START, first).manager.active {
        PendingEvent(first + front, more[n], r);
        RunSplits(START, first, more);
        assert EndsWait(Run(START, first + front), more[n], r) ==> WaitEndedAt(first, more, r, n);
      } else {
        var k: nat :| k < |front| && WaitEndedAt(first, front, r, k);
        assert front[..k] == more[..k];
        assert WaitEndedAt(first, more, r, k);
      }
    }
  }

  lemma PendingEvent(events: seq<Event>, e: Event, r: Receipt)
    requires Awaits(Run(START, events), r)
    ensures var s := Run(START, events);
            Step(s, e).manager.active == s.manager.active || EndsWait(s, e, r)
  {
    hide Run, Inv, Step, Scoped;
    ReachableInv(events);
    PendingStep(Run(START, events), e, r);
  }

  lemma PendingStep(s: State, e: Event, r: Receipt)
    requires Inv(s) && Awaits(s, r)
    ensures var t := Step(s, e);
            || t.manager.active == s.manager.active
            || (t.manager.active.None? && Clock(e).Some? && Clock(e).value >= s.manager.active.value.grant.expiresAt)
            || (CleansUp(s, e, r) && t.manager.active.Some? && t.manager.active.value.pending.None?
                && Scoped(t.manager.active.value.grant) == Scoped(s.manager.active.value.grant))
  {
    hide Step, Inv, Evolves, Sound, Scoped;
    InvSound(s);
    if e.EndMutation? {
      LandingKeepsToken(s, e);
    } else {
      var issued := StepEvolves(s, e);
      if Step(s, e).manager.active.None? { DroppedOnlyByExpiry(s, e); }
      EvolvesActive(s.manager, Step(s, e).manager, issued);
      if issued.Some? { PendingGrantsRefused(s, e, r); }
    }
  }

  lemma EvolvesActive(m: Manager, next: Manager, issued: Option<Active>)
    requires Evolves(m, next, issued)
    ensures next.active == m.active || next.active.None? || (issued.Some? && next.active == issued)
  {
    hide Sound;
  }

  lemma PendingGrantsRefused(s: State, e: Event, r: Receipt)
    requires Awaits(s, r)
    ensures e.MintEvent? || e.ReplaceEvent? || e.ClearEvent? ==> Step(s, e).manager == s.manager
  {
    if e.MintEvent? || e.ReplaceEvent? { LineageBusyExactly(s.manager, e.input, e.taskId, e.now); }
  }

  /** The authority is gone only where it had expired. */
  predicate ExpiredBy(m: Manager, next: Manager, now: int) {
    next.active.None? ==> m.active.None? || now >= m.active.value.grant.expiresAt
  }

  lemma CurrentExpires(m: Manager, now: int)
    ensures ExpiredBy(m, Current(m, now), now)
  {
  }

  lemma BeginReferenceExpires(m: Manager, source: Target, receipt: Option<Receipt>, now: int)
    requires source.Page?
    ensures ExpiredBy(m, BeginReference(m, source, receipt, now).0, now)
    ensures ExpiredBy(m, BeginReference(Current(m, now), source, receipt, now).0, now)
  {
    hide LineageError;
  }

  lemma AcceptExpires(m: Manager, t: Transition, now: int)
    requires Sound(m)
    ensures ExpiredBy(m, Accept(m, t, now).0, now)
  {
    hide Accept, TransitionError, MovedBy, ActiveSound, Scoped;
    AcceptMoves(m, t, now);
    CurrentExpires(m, now);
  }

  lemma LineageStepExpires(s: State, e: Event)
    requires Sound(s.manager) && s.manager.active.Some?
    requires e.BeginCreate? || e.EndCreate? || e.BeginCleanup? || e.EndCleanup?
    ensures ExpiredBy(s.manager, Step(s, e).manager, Clock(e).value)
  {
    hide Accept, BeginReference, Current, CreateVerified, CleanupVerified, Scoped, GuardLive, Sound;
    CurrentExpires(s.manager, e.now);
    if e.BeginCreate? && e.source.Page? {
      BeginReferenceExpires(s.manager, e.source, None, e.now);
    } else if e.BeginCleanup? && e.receipt.source.Page? {
      BeginReferenceExpires(s.manager, e.receipt.source, Some(e.receipt), e.now);
    } else if e.EndCreate? && e.work in s.works && e.evidence.Some? {
      var w := s.works[e.work];
      var r := Receipt(s.nextReceipt, w.source, e.evidence.value.created);
      var offered := s.manager.(eligible := s.manager.eligible + {r});
      SoundReads(s.manager, offered);
      AcceptExpires(offered, Transition(Clone, w.taskId, w.scoped, w.lease, r, e.evidence.value.baseline,
                                        e.evidence.value.createdPages), e.now);
    } else if e.EndCleanup? && e.work in s.works && s.works[e.work].cleanup.Some? && e.cleaned.Some? {
      var w := s.works[e.work];
      AcceptExpires(s.manager, Transition(Cleanup, w.taskId, w.scoped, w.lease, w.cleanup.value, w.pages,
                                          e.cleaned.value.activePages), e.now);
    }
  }

  lemma SoundReads(a: Manager, b: Manager)
    requires Sound(a) && b == a.(eligible := b.eligible)
    ensures Sound(b)
  {
    hide ActiveSound;
  }

  lemma QuietStepKeepsActive(s: State, e: Event)
    requires !e.Look? && !e.MintEvent? && !e.ReplaceEvent? && !e.ClearEvent?
    requires !e.BeginCreate? && !e.EndCreate? && !e.BeginCleanup? && !e.EndCleanup?
    ensures Step(s, e).manager.active == s.manager.active
  {
    hide Fresh, GuardLive, Dispatched;
    if e.StartMutation? && e.id in s.leases { DispatchKeepsActive(s, e.id, e.now, e.later, e.fresh1, e.fresh2); }
  }

  lemma DispatchKeepsActive(s: State, id: nat, now: int, later: int, fresh1: bool, fresh2: bool)
    requires id in s.leases
    ensures Dispatched(s, id, now, later, fresh1, fresh2).manager.active == s.manager.active
  {
    hide Fresh, GuardLive;
  }

  lemma DroppedOnlyByExpiry(s: State, e: Event)
    requires Sound(s.manager) && s.manager.active.Some? && s.manager.active.value.pending.Some?
    requires Step(s, e).manager.active.None?
    ensures Clock(e).Some? && Clock(e).value >= s.manager.active.value.grant.expiresAt
  {
    hide Step, Sound;
    if e.Look? {
      LookExpires(s, e);
    } else if e.MintEvent? || e.ReplaceEvent? || e.ClearEvent? {
      PendingGrantsRefused(s, e, s.manager.active.value.pending.value);
    } else if e.BeginCreate? || e.EndCreate? || e.BeginCleanup? || e.EndCleanup? {
      LineageStepExpires(s, e);
    } else {
      QuietStepKeepsActive(s, e);
    }
  }

  lemma LookExpires(s: State, e: Event)
    requires e.Look?
    ensures ExpiredBy(s.manager, Step(s, e).manager, e.now)
  {
  }

  // ----- The whole round trip -----

  /** An accepted clone: what `EndCreate` did to the authority when a receipt came to await its cleanup. */
  lemma CreateMoves(s: State, e: Event, r: Receipt) returns (out: Transition)
    requires Inv(s) && e.EndCreate? && !Awaits(s, r) && Awaits(Step(s, e), r)
    ensures s.manager.active.Some? && out.direction.Clone? && out.receipt == r
    ensures MovedBy(s.manager.active.value, Step(s, e).manager.active.value, out)
  {
    hide Inv, Sound, Scoped, MovedBy, Accept, TransitionError, CreateVerified, Current;
    InvSound(s);
    var w := s.works[e.work];
    var made := Receipt(s.nextReceipt, w.source, e.evidence.value.created);
    var offered := s.manager.(eligible := s.manager.eligible + {made});
    out := Transition(Clone, w.taskId, w.scoped, w.lease, made, e.evidence.value.baseline, e.evidence.value.createdPages);
    SoundReads(s.manager, offered);
    AcceptMoves(offered, out, e.now);
    CurrentActive(offered, e.now);
    var accepted := Accept(offered, out, e.now);
    if accepted.1.Ok? { MovedPending(offered.active.value, accepted.1.value, out); }
  }

  lemma CurrentActive(m: Manager, now: int)
    ensures Current(m, now).active == m.active || Current(m, now).active.None?
  {
  }

  /** An accepted cleanup: what `EndCleanup` did to the authority when the awaited receipt was settled. */
  lemma CleanupMoves(s: State, e: Event, r: Receipt) returns (back: Transition)
    requires Inv(s) && e.EndCleanup? && Awaits(s, r)
    requires Step(s, e).manager.active.Some? && Step(s, e).manager.active.value.pending.None?
    ensures back.direction.Cleanup? && MovedBy(s.manager.active.value, Step(s, e).manager.active.value, back)
  {
    hide Inv, Sound, Scoped, MovedBy, Accept, TransitionError, CleanupVerified, Current;
    InvSound(s);
    var w := s.works[e.work];
    back := Transition(Cleanup, w.taskId, w.scoped, w.lease, w.cleanup.value, w.pages, e.cleaned.value.activePages);
    AcceptMoves(s.manager, back, e.now);
    CurrentActive(s.manager, e.now);
    var accepted := Accept(s.manager, back, e.now);
    assert Step(s, e).manager.active == accepted.0.active;
  }

  lemma {:induction false} PendingActiveIsConstant(first: seq<Event>, more: seq<Event>, r: Receipt)
    requires forall k :: 0 <= k <= |more| ==> Awaits(Run(START, first + more[..k]), r)
    ensures Run(START, first + more).manager.active == Run(START, first).manager.active
    decreases |more|
  {
    hide Run, Step, Scoped;
    if more == [] {
      assert first + more == first;
    } else {
      var n := |more| - 1;
      var front := more[..n];
      forall k | 0 <= k <= |front| ensures Awaits(Run(START, first + front[..k]), r) {
        assert front[..k] == more[..k];
        assert Awaits(Run(START, first + more[..k]), r);
      }
      PendingActiveIsConstant(first, front, r);
      assert Awaits(Run(START, first + more[..n]), r);
      PendingEvent(first + front, more[n], r);
      RunSplits(START, first, more);
      assert more[..|more|] == more;
      assert Awaits(Run(START, first + more[..|more|]), r);
    }
  }

  /**
   From an accepted clone to its accepted cleanup, whatever happens in between: the page
   inventory, its digest and the whole grant are what they were before the clone.
   */
  lemma LineageRoundTrip(first: seq<Event>, create: Event, between: seq<Event>, cleanup: Event, r: Receipt)
    requires create.EndCreate? && cleanup.EndCleanup?
    requires !Awaits(Run(START, first), r)
    requires forall k :: 0 <= k <= |between| ==> Awaits(Run(START, (first + [create]) + between[..k]), r)
    requires var end := Run(START, (first + [create]) + between + [cleanup]);
             end.manager.active.Some? && end.manager.active.value.pending.None?
    ensures var start := Run(START, first);
            var end := Run(START, (first + [create]) + between + [cleanup]);
            && start.manager.active.Some? && end.manager.active.Some?
            && end.manager.active.value.inventory == start.manager.active.value.inventory
            && end.manager.active.value.grant == start.manager.active.value.grant
  {
    hide Run, Step, Inv, MovedBy, ActiveSound;
    var start := Run(START, first);
    ReachableInv(first);
    RunSplits(START, first, [create]);
    assert [create][..0] == [] && first + [] == first;
    assert between[..0] == [] && (first + [create]) + [] == first + [create];
    assert Awaits(Run(START, (first + [create]) + between[..0]), r);
    var out := CreateMoves(start, create, r);
    PendingActiveIsConstant(first + [create], between, r);
    var whole := (first + [create]) + between;
    assert between[..|between|] == between;
    assert Awaits(Run(START, (first + [create]) + between[..|between|]), r);
    ReachableInv(whole);
    RunSplits(START, whole, [cleanup]);
    assert [cleanup][..0] == [] && whole + [] == whole;
    var back := CleanupMoves(Run(START, whole), cleanup, r);
    assert ActiveSound(start.manager.active.value) by { ActiveIsSound(start); }
    CloneThenCleanupRestores(start.manager.active.value, Run(START, whole).manager.active.value,
                             Step(Run(START, whole), cleanup).manager.active.value, out, back);
  }

  lemma ActiveIsSound(s: State)
    requires Inv(s) && s.manager.active.Some?
    ensures ActiveSound(s.manager.active.value)
  {
    hide ActiveSound;
  }
}
