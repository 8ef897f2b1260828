/** The authority manager and the browser lease as the mutable objects they are. */
module TaskAuthorityManager {
  import opened Prelude
  import opened TaskScope
  import TA = TaskAuthority

  class Manager {
    var active: Option<TA.Active>
    var revocationToken: nat
    var referenceMutationLease: Option<nat>
    var mutationDispatchLease: Option<nat>
    var taskExecutionLease: Option<nat>
    var next: nat
    var eligible: set<TA.Receipt>

    constructor ()
      ensures State() == TA.INIT
    {
      active, revocationToken, next, eligible := None, 0, 1, {};
      referenceMutationLease, mutationDispatchLease, taskExecutionLease := None, None, None;
    }

    function State(): TA.Manager
      reads this
    {
      TA.Manager(active, revocationToken, referenceMutationLease, mutationDispatchLease, taskExecutionLease, next, eligible)
    }

    method FreshToken() returns (token: nat)
      modifies this`next
      ensures token == old(next) && next == old(next) + 1
    {
      token := next;
      next := next + 1;
    }

    /** Drops an expired authority unless a lease pins it. */
    method Current(now: int)
      modifies this
      ensures State() == TA.Current(old(State()), now)
    {
      if active.Some? && mutationDispatchLease.None? && taskExecutionLease.None? && now >= active.value.grant.expiresAt {
        active := None;
        revocationToken := FreshToken();
        referenceMutationLease := None;
      }
    }

    method AssertNoAuthorityTransition(allowVerifiedReferenceTransition: bool) returns (blocked: Option<TA.Error>)
      ensures blocked == TA.TransitionBlocked(State(), allowVerifiedReferenceTransition)
    {
      if !allowVerifiedReferenceTransition {
        if referenceMutationLease.Some? { return Some(TA.LineageBusy); }
        if active.Some? && active.value.pending.Some? { return Some(TA.LineageBusy); }
      }
      if mutationDispatchLease.Some? { return Some(TA.MutationInProgress); }
      if taskExecutionLease.Some? { return Some(TA.ExecutionInProgress); }
      return None;
    }

    method Mint(input: TA.MintInput, taskId: nat, now: int) returns (result: Result<TA.Active, TA.Error>)
      modifies this
      ensures State() == TA.Mint(old(State()), input, taskId, now).0
      ensures result == TA.Mint(old(State()), input, taskId, now).1
    {
      hide TA.Build;
      var blocked := AssertNoAuthorityTransition(false);
      if blocked.Some? { return Err(blocked.value); }
      Current(now);
      if active.Some? { return Err(TA.AlreadyActive); }
      result := TA.Build(input, taskId, next, now);
      if result.Ok? { Activate(result.value, input, taskId, now); }
    }

    /** Builds and validates first, so that an invalid replacement preserves the active grant. */
    method Replace(input: TA.MintInput, taskId: nat, now: int) returns (result: Result<TA.Active, TA.Error>)
      modifies this
      ensures State() == TA.Replace(old(State()), input, taskId, now).0
      ensures result == TA.Replace(old(State()), input, taskId, now).1
    {
      hide TA.Build;
      var blocked := AssertNoAuthorityTransition(false);
      if blocked.Some? { return Err(blocked.value); }
      Current(now);
      result := TA.Build(input, taskId, next, now);
      if result.Ok? { Activate(result.value, input, taskId, now); }
    }

    /** The new token revokes every earlier guard before the new grant becomes active. */
    method Activate(a: TA.Active, ghost input: TA.MintInput, ghost taskId: nat, ghost now: int)
      requires TA.Build(input, taskId, next, now) == Ok(a)
      modifies this
      ensures State() == TA.Activated(old(State()), a)
    {
      TA.BuildSound(input, taskId, next, now);
      var token := FreshToken();
      revocationToken := token;
      active := Some(a);
    }

    method Clear() returns (result: Result<bool, TA.Error>)
      modifies this
      ensures State() == TA.Clear(old(State())).0
      ensures result == TA.Clear(old(State())).1
    {
      var blocked := AssertNoAuthorityTransition(false);
      if blocked.Some? { return Err(blocked.value); }
      var existed := active.Some?;
      active := None;
      revocationToken := FreshToken();
      referenceMutationLease := None;
      return Ok(existed);
    }

    // ----- Leases -----

    method BeginMutationDispatch(g: TA.Guard, now: int, later: int) returns (result: Result<nat, TA.Error>)
      modifies this
      ensures State() == TA.BeginDispatch(old(State()), g, now, later).0
      ensures result == TA.BeginDispatch(old(State()), g, now, later).1
    {
      if !TA.GuardLive(State(), g, now) { return Err(TA.GuardError(State(), g)); }
      if active.None? || revocationToken != g.token { return Err(TA.Revoked); }
      if mutationDispatchLease.Some? { return Err(TA.MutationInProgress); }
      var lease := FreshToken();
      mutationDispatchLease := Some(lease);
      if !TA.GuardLive(State(), g, later) {
        EndMutationDispatch(lease);
        return Err(TA.Expired);
      }
      return Ok(lease);
    }

    method EndMutationDispatch(lease: nat)
      modifies this`mutationDispatchLease
      ensures State() == TA.EndDispatch(old(State()), lease)
    {
      if mutationDispatchLease == Some(lease) { mutationDispatchLease := None; }
    }

    method BeginTaskExecution(g: TA.Guard, now: int, later: int) returns (result: Result<nat, TA.Error>)
      modifies this
      ensures State() == TA.BeginExecution(old(State()), g, now, later).0
      ensures result == TA.BeginExecution(old(State()), g, now, later).1
    {
      if !TA.GuardLive(State(), g, now) { return Err(TA.GuardError(State(), g)); }
      if active.None? || revocationToken != g.token { return Err(TA.Revoked); }
      if taskExecutionLease.Some? { return Err(TA.ExecutionInProgress); }
      var lease := FreshToken();
      taskExecutionLease := Some(lease);
      if !TA.GuardLive(State(), g, later) {
        EndTaskExecution(lease);
        return Err(TA.Expired);
      }
      return Ok(lease);
    }

    method EndTaskExecution(lease: nat)
      modifies this`taskExecutionLease
      ensures State() == TA.EndExecution(old(State()), lease)
    {
      if taskExecutionLease == Some(lease) { taskExecutionLease := None; }
    }

    // ----- Reference lineage -----

    method BeginReferenceInventoryMutation(source: Target, receipt: Option<TA.Receipt>, now: int)
      returns (result: Result<nat, TA.Error>)
      requires source.Page?
      modifies this
      ensures State() == TA.BeginReference(old(State()), source, receipt, now).0
      ensures result == TA.BeginReference(old(State()), source, receipt, now).1
    {
      hide TA.LineageError;
      if referenceMutationLease.Some? { return Err(TA.LineageBusy); }
      Current(now);
      var refused := TA.LineageError(State(), source, receipt, now);
      if refused.Some? { return Err(refused.value); }
      var lease := FreshToken();
      referenceMutationLease := Some(lease);
      return Ok(lease);
    }

    method EndReferenceInventoryMutation(lease: nat)
      modifies this`referenceMutationLease
      ensures State() == TA.EndReference(old(State()), lease)
    {
      if referenceMutationLease == Some(lease) { referenceMutationLease := None; }
    }

    /** Moves the inventory digest after one verified page addition or removal; scope, task and expiry stay. */
    method AcceptVerifiedReferenceInventoryTransition(t: TA.Transition, now: int) returns (result: Result<TA.Active, TA.Error>)
      modifies this
      ensures State() == TA.Accept(old(State()), t, now).0
      ensures result == TA.Accept(old(State()), t, now).1
    {
      hide TA.TransitionError, GrantValid, TA.Rebind;
      var blocked := AssertNoAuthorityTransition(true);
      if blocked.Some? { return Err(blocked.value); }
      Current(now);
      var refused := TA.TransitionError(State(), t, now);
      if refused.Some? { return Err(refused.value); }
      assert active.Some? && active.value.inventory.Some? && t.receipt.source.Page? by { Acceptable(State(), t, now); }
      var replacement := TA.Rebind(active.value, t, next);
      RebindToken(active.value, t, next);
      if !GrantValid(replacement.grant, replacement.grant.binding, now) { return Err(TA.GrantInvalid); }
      if t.direction.Clone? { eligible := eligible - {t.receipt}; }
      var token := FreshToken();
      revocationToken := token;
      active := Some(replacement);
      return Ok(replacement);
    }
  }

  lemma Acceptable(m: TA.Manager, t: TA.Transition, now: int)
    requires TA.TransitionError(m, t, now).None?
    ensures m.active.Some? && m.active.value.inventory.Some? && t.receipt.source.Page?
  {
    hide TA.ExactChange, TA.InventoryValid, Distinct, Within, MayChange, TA.Scoped, TA.GuardLive;
  }

  lemma RebindToken(a: TA.Active, t: TA.Transition, token: nat)
    requires a.inventory.Some? && t.receipt.source.Page?
    ensures TA.Rebind(a, t, token).token == token
  {
  }

  /** One browser lease over one tab; it may send one mutation in its life. */
  class BrowserAuthorityLease {
    const manager: Manager
    const guard: TA.Guard
    const binding: Binding
    const expiresAt: int
    var closed: bool
    var adapterOperationActive: bool
    var mutationSlotConsumed: bool

    /** The process-wide slot still belongs to this lease. */
    var ownsProcess: bool

    /** How many mutations were sent. */
    ghost var sent: nat

    constructor (manager: Manager, guard: TA.Guard, binding: Binding, expiresAt: int)
      ensures this.manager == manager && this.guard == guard && this.binding == binding && this.expiresAt == expiresAt
      ensures Valid() && !closed && !adapterOperationActive && ownsProcess && sent == 0
    {
      this.manager, this.guard, this.binding, this.expiresAt := manager, guard, binding, expiresAt;
      closed, adapterOperationActive, mutationSlotConsumed, ownsProcess, sent := false, false, false, true, 0;
    }

    ghost predicate Valid()
      reads this
    {
      sent == if mutationSlotConsumed then 1 else 0
    }

    predicate Fresh(now: int, trusted: bool)
      reads this, manager
    {
      && !closed && TA.GuardLive(manager.State(), guard, now) && guard.grant.binding == binding
      && ownsProcess && trusted && now <= expiresAt
    }

    method BeginAdapterOperation(now: int, trusted: bool) returns (ok: bool)
      requires Valid()
      modifies this`adapterOperationActive
      ensures Valid()
      ensures ok <==> old(Fresh(now, trusted)) && !old(adapterOperationActive)
      ensures adapterOperationActive == (ok || old(adapterOperationActive))
    {
      if !Fresh(now, trusted) || adapterOperationActive { return false; }
      adapterOperationActive := true;
      return true;
    }

    method EndAdapterOperation()
      requires Valid()
      modifies this`adapterOperationActive
      ensures Valid() && !adapterOperationActive
    {
      adapterOperationActive := false;
    }

    /**
     Sends at most one mutation in the life of the lease, and only while it holds the manager's
     dispatch lease under a live guard; the slot is spent before the write leaves.
     */
    method DispatchMutation(now: int, later: int, trusted: bool, stillTrusted: bool) returns (sending: Result<nat, TA.Error>)
      requires Valid()
      modifies this`mutationSlotConsumed, this`sent, manager
      ensures Valid() && (mutationSlotConsumed <==> old(mutationSlotConsumed) || sending.Ok?)
      ensures sending.Ok? <==>
              && old(Fresh(now, trusted)) && !old(mutationSlotConsumed) && !closed && ownsProcess
              && old(manager.active).Some? && old(manager.mutationDispatchLease).None?
              && TA.GuardLive(old(manager.State()), guard, later) && stillTrusted && later <= expiresAt
      ensures sending.Ok? ==> manager.mutationDispatchLease == Some(sending.value)
      ensures sending.Err? ==> manager.mutationDispatchLease == old(manager.mutationDispatchLease)
      ensures manager.active == old(manager.active) && manager.revocationToken == old(manager.revocationToken)
    {
      if !Fresh(now, trusted) { return Err(TA.Revoked); }
      var lease := manager.BeginMutationDispatch(guard, now, later);
      if lease.Err? { return lease; }
      if !Fresh(later, stillTrusted) || mutationSlotConsumed {
        manager.EndMutationDispatch(lease.value);
        return Err(TA.Revoked);
      }
      mutationSlotConsumed := true;
      sent := sent + 1;
      return lease;
    }

    method Close() returns (ok: bool)
      requires Valid()
      modifies this`closed, this`ownsProcess
      ensures Valid() && ok == (old(closed) || !adapterOperationActive)
      ensures closed == (old(closed) || ok) && ownsProcess == (old(ownsProcess) && (old(closed) || !ok))
    {
      if closed { return true; }
      if adapterOperationActive { return false; }
      closed := true;
      ownsProcess := false;
      return true;
    }
  }
}
