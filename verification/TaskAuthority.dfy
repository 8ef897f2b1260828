/**
 One ephemeral authority per process: tokens that revoke guards, leases that pin
 the active grant, and the lineage of one reference clone at a time.
 */
module TaskAuthority {
  import opened Prelude
  import opened TaskScope

  /** Receipts are objects; `id` is their identity. */
  datatype Receipt = Receipt(id: nat, source: Target, created: Target)

  datatype Active = Active(token: nat, grant: Grant, inventory: Option<Inventory>, pending: Option<Receipt>)

  /** `next` numbers tokens and leases, so that each is new; `eligible` holds the receipts that still prove a clone. */
  datatype Manager = Manager(
    active: Option<Active>, revocation: nat,
    reference: Option<nat>, dispatch: Option<nat>, execution: Option<nat>,
    next: nat, eligible: set<Receipt>)

  datatype Guard = Guard(token: nat, grant: Grant)

  datatype Error =
    | AlreadyActive | AuthorityRequired | Revoked | Expired
    | LineageBusy | LineageMismatch | LineageInvalid | LineageUnavailable | LineageScopeDenied | ReceiptRejected
    | MutationInProgress | ExecutionInProgress
    | DescriptionInvalid | TtlInvalid | ClockInvalid | InventoryInvalid | GrantInvalid | ChangeDenied

  const INIT := Manager(None, 0, None, None, None, 1, {})

  // ----- Guards -----

  /** A guard works only while it is unrevoked and inside its time window. */
  predicate GuardLive(m: Manager, g: Guard, now: int) {
    g.token == m.revocation && g.grant.issuedAt <= now < g.grant.expiresAt
  }

  function GuardError(m: Manager, g: Guard): Error {
    if g.token != m.revocation then Revoked else Expired
  }

  function GuardOf(a: Active): Guard { Guard(a.token, a.grant) }

  /** What identifies a grant to ChangeSets: everything but the inventory digest. */
  function Scoped(g: Grant): Grant {
    g.(binding := Binding(g.binding.account, Inventory(0, map[])))
  }

  // ----- Expiry -----

  /** Looking at the current authority drops it when it has expired and nothing pins it. */
  function Current(m: Manager, now: int): Manager {
    if m.active.Some? && m.dispatch.None? && m.execution.None? && now >= m.active.value.grant.expiresAt then
      m.(active := None, revocation := m.next, next := m.next + 1, reference := None)
    else m
  }

  /** Why the authority may not change hands now, if so. */
  function TransitionBlocked(m: Manager, verifiedReference: bool): Option<Error> {
    if !verifiedReference && (m.reference.Some? || (m.active.Some? && m.active.value.pending.Some?)) then Some(LineageBusy)
    else if m.dispatch.Some? then Some(MutationInProgress)
    else if m.execution.Some? then Some(ExecutionInProgress)
    else None
  }

  // ----- mint, replace, clear -----

  datatype MintInput = MintInput(
    described: bool, instruction: nat, mode: Mode, observe: seq<Target>, write: seq<Target>,
    operations: seq<Operation>, publication: Option<Publication>, binding: Binding,
    inventory: Option<Inventory>, ttl: Option<int>)

  const DEFAULT_TTL := 15 * 60 * 1000
  const MAX_TIME := 8_640_000_000_000_000

  /** Every project owns its pages alone, and there is a project. */
  predicate InventoryValid(inv: Inventory) {
    inv.owned != map[] && forall p <- inv.owned, q <- inv.owned :: p != q ==> inv.owned[p] !! inv.owned[q]
  }

  function Build(input: MintInput, taskId: nat, token: nat, now: int): Result<Active, Error> {
    var ttl := if input.ttl.Some? then input.ttl.value else DEFAULT_TTL;
    var grant := Grant(taskId, input.mode, input.instruction, now, now + ttl, input.binding,
                       input.observe, input.write, input.operations, input.publication);
    if !input.described then Err(DescriptionInvalid)
    else if ttl <= 0 || ttl > MAX_TTL then Err(TtlInvalid)
    else if now > MAX_TIME - ttl then Err(ClockInvalid)
    else if input.inventory.Some? && !InventoryValid(input.inventory.value) then Err(InventoryInvalid)
    else if input.inventory.Some?
            && input.binding != Binding(input.inventory.value.account, input.inventory.value) then Err(InventoryInvalid)
    else if !GrantValid(grant, input.binding, now) then Err(GrantInvalid)
    else Ok(Active(token, grant, input.inventory, None))
  }

  function Activated(m: Manager, a: Active): Manager {
    m.(active := Some(a), revocation := a.token, next := a.token + 1)
  }

  function Mint(m: Manager, input: MintInput, taskId: nat, now: int): (Manager, Result<Active, Error>) {
    var blocked := TransitionBlocked(m, false);
    if blocked.Some? then (m, Err(blocked.value))
    else
      var seen := Current(m, now);
      if seen.active.Some? then (seen, Err(AlreadyActive))
      else
        var built := Build(input, taskId, seen.next, now);
        if built.Err? then (seen, built) else (Activated(seen, built.value), built)
  }

  /** Builds first, so that an invalid replacement leaves the active grant alone. */
  function Replace(m: Manager, input: MintInput, taskId: nat, now: int): (Manager, Result<Active, Error>) {
    var blocked := TransitionBlocked(m, false);
    if blocked.Some? then (m, Err(blocked.value))
    else
      var seen := Current(m, now);
      var built := Build(input, taskId, seen.next, now);
      if built.Err? then (seen, built) else (Activated(seen, built.value), built)
  }

  function Clear(m: Manager): (Manager, Result<bool, Error>) {
    var blocked := TransitionBlocked(m, false);
    if blocked.Some? then (m, Err(blocked.value))
    else (m.(active := None, revocation := m.next, next := m.next + 1, reference := None), Ok(m.active.Some?))
  }

  // ----- Leases -----

  /** The guard is checked before and after the lease is taken; a guard that died in between gives it back. */
  function BeginDispatch(m: Manager, g: Guard, now: int, later: int): (Manager, Result<nat, Error>) {
    if !GuardLive(m, g, now) then (m, Err(GuardError(m, g)))
    else if m.active.None? then (m, Err(Revoked))
    else if m.dispatch.Some? then (m, Err(MutationInProgress))
    else if !GuardLive(m, g, later) then (m.(next := m.next + 1), Err(Expired))
    else (m.(dispatch := Some(m.next), next := m.next + 1), Ok(m.next))
  }

  function BeginExecution(m: Manager, g: Guard, now: int, later: int): (Manager, Result<nat, Error>) {
    if !GuardLive(m, g, now) then (m, Err(GuardError(m, g)))
    else if m.active.None? then (m, Err(Revoked))
    else if m.execution.Some? then (m, Err(ExecutionInProgress))
    else if !GuardLive(m, g, later) then (m.(next := m.next + 1), Err(Expired))
    else (m.(execution := Some(m.next), next := m.next + 1), Ok(m.next))
  }

  function EndDispatch(m: Manager, lease: nat): Manager {
    if m.dispatch == Some(lease) then m.(dispatch := None) else m
  }

  function EndExecution(m: Manager, lease: nat): Manager {
    if m.execution == Some(lease) then m.(execution := None) else m
  }

  // ----- Reference lineage -----

  function ChangeError(m: Manager, a: Active, op: Operation, t: Target, now: int): Option<Error> {
    if !GuardLive(m, GuardOf(a), now) then Some(GuardError(m, GuardOf(a)))
    else if !MayChange(a.grant, op, t) then Some(ChangeDenied)
    else None
  }

  function LineageError(m: Manager, source: Target, receipt: Option<Receipt>, now: int): Option<Error>
    requires source.Page?
  {
    if m.active.None? then Some(AuthorityRequired)
    else
      var a := m.active.value;
      var clone := ChangeError(m, a, ReferenceClone, source, now);
      var cleanup := ChangeError(m, a, ReferenceCleanup, source, now);
      if clone.Some? then clone
      else if cleanup.Some? then cleanup
      else if a.pending != receipt then Some(LineageBusy)
      else if a.inventory.None? || source.project !in a.inventory.value.owned
              || source.page !in a.inventory.value.owned[source.project] then Some(LineageUnavailable)
      else if Project(source.project) !in a.grant.write then Some(LineageScopeDenied)
      else None
  }

  function BeginReference(m: Manager, source: Target, receipt: Option<Receipt>, now: int): (Manager, Result<nat, Error>)
    requires source.Page?
  {
    if m.reference.Some? then (m, Err(LineageBusy))
    else
      var seen := Current(m, now);
      var refused := LineageError(seen, source, receipt, now);
      if refused.Some? then (seen, Err(refused.value))
      else (seen.(reference := Some(seen.next), next := seen.next + 1), Ok(seen.next))
  }

  function EndReference(m: Manager, lease: nat): Manager {
    if m.reference == Some(lease) then m.(reference := None) else m
  }

  datatype Direction = Clone | Cleanup

  datatype Transition = Transition(
    direction: Direction, taskId: nat, scoped: Grant, lease: nat, receipt: Receipt,
    before: seq<nat>, after: seq<nat>)

  function Ids(s: seq<nat>): set<nat> { set k | 0 <= k < |s| :: s[k] }

  predicate SameIds(s: seq<nat>, ids: set<nat>) {
    Distinct(s) && Ids(s) == ids
  }

  predicate ReceiptShaped(r: Receipt) {
    r.source.Page? && r.created.Page? && r.source.project == r.created.project && r.source.page != r.created.page
  }

  /** Exactly one page was added, or removed, and the source stayed. */
  predicate ExactChange(direction: Direction, before: seq<nat>, after: seq<nat>, source: nat, changed: nat) {
    match direction
    case Clone =>
      && changed !in before && |after| == |before| + 1 && changed in after
      && (forall id :: id in before ==> id in after) && source in before
    case Cleanup =>
      && changed in before && |after| == |before| - 1 && changed !in after
      && (forall id :: id in after ==> id in before) && source in after
  }

  function OperationOf(direction: Direction): Operation {
    if direction.Clone? then ReferenceClone else ReferenceCleanup
  }

  function Rebound(inv: Inventory, project: nat, after: seq<nat>): Inventory {
    inv.(owned := inv.owned[project := Ids(after)])
  }

  /** Everything that is checked before the inventory digest of the active grant may move. */
  function TransitionError(m: Manager, t: Transition, now: int): Option<Error> {
    if m.active.None? then Some(AuthorityRequired)
    else
      var a := m.active.value;
      var r := t.receipt;
      if !GuardLive(m, GuardOf(a), now) then Some(GuardError(m, GuardOf(a)))
      else if m.reference != Some(t.lease) then Some(LineageMismatch)
      else if a.grant.taskId != t.taskId || Scoped(a.grant) != t.scoped then Some(LineageMismatch)
      else if !ReceiptShaped(r) then Some(LineageInvalid)
      else if a.pending != (if t.direction.Clone? then None else Some(r)) then Some(LineageBusy)
      else if !MayChange(a.grant, OperationOf(t.direction), r.source) then Some(ChangeDenied)
      else if a.inventory.None? then Some(LineageUnavailable)
      else if !Within(a.grant.write, r.created) then Some(LineageScopeDenied)
      else if r.source.project !in a.inventory.value.owned then Some(LineageInvalid)
      else if !Distinct(t.before) || !Distinct(t.after) then Some(LineageInvalid)
      else if !SameIds(t.before, a.inventory.value.owned[r.source.project]) then Some(LineageMismatch)
      else if !ExactChange(t.direction, t.before, t.after, r.source.page, r.created.page) then Some(LineageInvalid)
      else if !InventoryValid(Rebound(a.inventory.value, r.source.project, t.after)) then Some(LineageInvalid)
      else if t.direction.Clone? && r !in m.eligible then Some(ReceiptRejected)
      else None
  }

  function Rebind(a: Active, t: Transition, token: nat): Active
    requires a.inventory.Some? && t.receipt.source.Page?
  {
    var inv := Rebound(a.inventory.value, t.receipt.source.project, t.after);
    Active(token, a.grant.(binding := a.grant.binding.(inventory := inv)), Some(inv),
           if t.direction.Clone? then Some(t.receipt) else None)
  }

  function Accept(m: Manager, t: Transition, now: int): (Manager, Result<Active, Error>) {
    var blocked := TransitionBlocked(m, true);
    if blocked.Some? then (m, Err(blocked.value))
    else
      var seen := Current(m, now);
      var refused := TransitionError(seen, t, now);
      if refused.Some? then (seen, Err(refused.value))
      else
        var a := Rebind(seen.active.value, t, seen.next);
        if !GrantValid(a.grant, a.grant.binding, now) then (seen, Err(GrantInvalid))
        else
          (Activated(seen, a).(eligible := if t.direction.Clone? then seen.eligible - {t.receipt} else seen.eligible), Ok(a))
  }

  // ----- Invariant -----

  /** The grant was valid when it was issued. */
  predicate GrantSound(g: Grant) {
    GrantValid(g, g.binding, g.issuedAt)
  }

  predicate ActiveSound(a: Active) {
    && GrantSound(a.grant)
    && (a.inventory.Some? ==>
          InventoryValid(a.inventory.value) && a.grant.binding == Binding(a.inventory.value.account, a.inventory.value))
    && (a.pending.Some? ==> PendingSound(a, a.pending.value))
  }

  predicate PendingSound(a: Active, r: Receipt) {
    && ReceiptShaped(r) && a.inventory.Some?
    && r.source.project in a.inventory.value.owned
    && r.created.page in a.inventory.value.owned[r.source.project]
    && r.source.page in a.inventory.value.owned[r.source.project]
  }

  predicate Below(lease: Option<nat>, next: nat) {
    lease.Some? ==> lease.value < next
  }

  predicate Sound(m: Manager) {
    && m.revocation < m.next
    && Below(m.reference, m.next) && Below(m.dispatch, m.next) && Below(m.execution, m.next)
    && (m.active.Some? ==> m.active.value.token == m.revocation && ActiveSound(m.active.value))
    && (m.dispatch.Some? || m.execution.Some? || m.reference.Some? ==> m.active.Some?)
  }

  /** A lease pins the active grant. */
  predicate Pinned(m: Manager) {
    m.dispatch.Some? || m.execution.Some?
  }

  lemma CurrentSound(m: Manager, now: int)
    requires Sound(m)
    ensures Sound(Current(m, now))
  {
    hide ActiveSound;
  }

  lemma BuildSound(input: MintInput, taskId: nat, token: nat, now: int)
    ensures var a := Build(input, taskId, token, now);
            a.Ok? ==> ActiveSound(a.value) && a.value.token == token && a.value.pending.None?
  {
    hide TargetList, ScopesApart, PublicationValid, ModeValid, Distinct;
  }

  lemma MintSound(m: Manager, input: MintInput, taskId: nat, now: int)
    requires Sound(m)
    ensures Sound(Mint(m, input, taskId, now).0) && Sound(Replace(m, input, taskId, now).0) && Sound(Clear(m).0)
  {
    hide ActiveSound, Build;
    CurrentSound(m, now);
    BuildSound(input, taskId, Current(m, now).next, now);
  }

  lemma LeasesSound(m: Manager, g: Guard, lease: nat, now: int, later: int)
    requires Sound(m)
    ensures Sound(BeginDispatch(m, g, now, later).0) && Sound(EndDispatch(m, lease))
    ensures Sound(BeginExecution(m, g, now, later).0) && Sound(EndExecution(m, lease))
    ensures Sound(EndReference(m, lease))
  {
    hide ActiveSound;
  }

  lemma BeginReferenceSound(m: Manager, source: Target, receipt: Option<Receipt>, now: int)
    requires Sound(m) && source.Page?
    ensures Sound(BeginReference(m, source, receipt, now).0)
  {
    hide ActiveSound, MayChange, GuardLive;
    CurrentSound(m, now);
  }

  // ----- Accepted transitions -----

  lemma IdsHas(s: seq<nat>, id: nat)
    ensures id in s <==> id in Ids(s)
  {
  }

  lemma {:induction false} IdsSize(s: seq<nat>)
    requires Distinct(s)
    ensures |Ids(s)| == |s|
  {
    if s != [] {
      var front := s[..|s| - 1];
      IdsSize(front);
      IdsSnoc(front, s[|s| - 1]);
      assert s == front + [s[|s| - 1]];
    }
  }

  lemma IdsSnoc(front: seq<nat>, last: nat)
    ensures Ids(front + [last]) == Ids(front) + {last}
    ensures Distinct(front + [last]) ==> last !in Ids(front)
  {
    var s := front + [last];
    forall x ensures x in Ids(s) <==> x in Ids(front) || x == last {
      IdsHas(s, x);
      IdsHas(front, x);
      assert x in s <==> x in front || x == last;
    }
    if last in Ids(front) {
      var k :| 0 <= k < |front| && front[k] == last;
      assert s[k] == s[|front|];
    }
  }

  /** A verified clone adds exactly its page, a verified cleanup removes exactly it. */
  lemma ExactChangeMeans(direction: Direction, before: seq<nat>, after: seq<nat>, source: nat, changed: nat)
    requires Distinct(before) && Distinct(after) && ExactChange(direction, before, after, source, changed)
    ensures Ids(after) == if direction.Clone? then Ids(before) + {changed} else Ids(before) - {changed}
    ensures source in Ids(after) && source in Ids(before)
  {
    forall id ensures (id in before <==> id in Ids(before)) && (id in after <==> id in Ids(after)) {
      IdsHas(before, id);
      IdsHas(after, id);
    }
    IdsSize(before);
    IdsSize(after);
    if direction.Clone? {
      EqualBySize(Ids(before) + {changed}, Ids(after));
    } else {
      EqualBySize(Ids(after) + {changed}, Ids(before));
      assert Ids(after) == Ids(before) - {changed};
    }
  }

  lemma EqualBySize(a: set<nat>, b: set<nat>)
    requires a <= b && |a| == |b|
    ensures a == b
  {
    if a != b {
      var x :| x in b && x !in a;
      LargerBy(a, b, x);
    }
  }

  lemma LargerBy(a: set<nat>, b: set<nat>, x: nat)
    requires a <= b && x in b && x !in a
    ensures |a| < |b|
  {
    var rest := b - {x};
    assert a <= rest;
    SubsetSize(a, rest);
  }

  lemma {:induction false} SubsetSize(a: set<nat>, b: set<nat>)
    requires a <= b
    ensures |a| <= |b|
    decreases |a|
  {
    if a != {} {
      var x :| x in a;
      SubsetSize(a - {x}, b - {x});
    }
  }

  function Moved(owned: Owned, t: Transition): Owned
    requires ReceiptShaped(t.receipt) && t.receipt.source.project in owned
  {
    var project := t.receipt.source.project;
    var page := t.receipt.created.page;
    owned[project := if t.direction.Clone? then owned[project] + {page} else owned[project] - {page}]
  }

  /** What an accepted transition leaves behind: only the digest, the pages of one project and the pending receipt move. */
  predicate MovedBy(a: Active, b: Active, t: Transition) {
    && a.inventory.Some? && ReceiptShaped(t.receipt)
    && t.receipt.source.project in a.inventory.value.owned
    && b.inventory == Some(a.inventory.value.(owned := Moved(a.inventory.value.owned, t)))
    && b.grant == a.grant.(binding := Binding(a.grant.binding.account, b.inventory.value))
    && a.pending == (if t.direction.Clone? then None else Some(t.receipt))
    && b.pending == (if t.direction.Clone? then Some(t.receipt) else None)
    && t.receipt.source.page in a.inventory.value.owned[t.receipt.source.project]
    && (t.receipt.created.page in a.inventory.value.owned[t.receipt.source.project] <==> t.direction.Cleanup?)
  }

  lemma RebindMoves(m: Manager, t: Transition, now: int)
    requires m.active.Some? && ActiveSound(m.active.value) && TransitionError(m, t, now).None?
    ensures ReceiptShaped(t.receipt) && m.active.value.inventory.Some?
    ensures MovedBy(m.active.value, Rebind(m.active.value, t, m.next), t)
  {
    hide GrantSound, MayChange, Within, Scoped, GuardLive, ExactChange, InventoryValid, Ids, Distinct;
    var a := m.active.value;
    var inv := a.inventory.value;
    ExactChangeMeans(t.direction, t.before, t.after, t.receipt.source.page, t.receipt.created.page);
    IdsHas(t.before, t.receipt.created.page);
    ChangedSide(t.direction, t.before, t.after, t.receipt.source.page, t.receipt.created.page);
    assert Ids(t.before) == inv.owned[t.receipt.source.project];
  }

  lemma ChangedSide(direction: Direction, before: seq<nat>, after: seq<nat>, source: nat, changed: nat)
    requires ExactChange(direction, before, after, source, changed)
    ensures changed in before <==> direction.Cleanup?
  {
  }

  /** A grant that was valid when issued is valid again in its window, whatever inventory it is now bound to. */
  lemma RebindValid(g: Grant, inv: Inventory, now: int)
    requires GrantSound(g) && g.issuedAt <= now < g.expiresAt
    ensures var next := g.(binding := g.binding.(inventory := inv));
            GrantValid(next, next.binding, now) && GrantSound(next)
  {
    hide TargetList, ScopesApart, PublicationValid, Distinct, Within;
  }

  lemma MovedSound(a: Active, b: Active, t: Transition)
    requires ActiveSound(a) && MovedBy(a, b, t) && GrantSound(b.grant) && InventoryValid(b.inventory.value)
    ensures ActiveSound(b)
  {
    hide GrantSound, InventoryValid;
  }

  /**
   A verified transition succeeds exactly when all its checks pass, moves only what it must,
   and revokes every guard minted before; a refused one changes nothing but an expired authority.
   */
  lemma AcceptMoves(m: Manager, t: Transition, now: int)
    requires Sound(m)
    ensures var (next, r) := Accept(m, t, now);
            && Sound(next)
            && (r.Err? ==> next == m || next == Current(m, now))
            && (r.Ok? <==> !Pinned(m) && TransitionError(Current(m, now), t, now).None?)
            && (r.Ok? ==> && m.active.Some? && Current(m, now) == m
                          && next.active == Some(r.value) && MovedBy(m.active.value, r.value, t)
                          && next.revocation != m.revocation
                          && Scoped(r.value.grant) == Scoped(m.active.value.grant)
                          && next.eligible == if t.direction.Clone? then m.eligible - {t.receipt} else m.eligible)
  {
    hide ActiveSound, GrantValid, MovedBy, InventoryValid;
    CurrentSound(m, now);
    var seen := Current(m, now);
    if !Pinned(m) && TransitionError(seen, t, now).None? {
      AcceptFacts(seen, t, now);
    }
  }

  lemma AcceptFacts(m: Manager, t: Transition, now: int)
    requires Sound(m) && TransitionError(m, t, now).None?
    ensures m.active.Some? && m.active.value.inventory.Some? && t.receipt.source.Page?
    ensures var a := m.active.value;
            var b := Rebind(a, t, m.next);
            && MovedBy(a, b, t) && ActiveSound(b) && GrantValid(b.grant, b.grant.binding, now)
            && Scoped(b.grant) == Scoped(a.grant)
  {
    hide GrantValid, MovedBy, InventoryValid, ExactChange, Ids, MayChange, Within, Distinct, PendingSound;
    RebindMoves(m, t, now);
    var a := m.active.value;
    var b := Rebind(a, t, m.next);
    RebindValid(a.grant, b.inventory.value, now);
    MovedSound(a, b, t);
  }

  /** A verified clone followed by its verified cleanup gives back the same pages, the same digest and the same grant. */
  lemma CloneThenCleanupRestores(a: Active, b: Active, c: Active, out: Transition, back: Transition)
    requires ActiveSound(a) && MovedBy(a, b, out) && MovedBy(b, c, back)
    requires out.direction.Clone? && back.direction.Cleanup?
    ensures back.receipt == out.receipt
    ensures c.inventory == a.inventory && c.grant == a.grant && c.pending.None? && a.pending.None?
  {
    hide GrantSound, InventoryValid;
    var project := out.receipt.source.project;
    var page := out.receipt.created.page;
    var owned := a.inventory.value.owned;
    assert owned[project] + {page} - {page} == owned[project];
    assert c.inventory.value.owned == owned;
  }

  // ----- Pinning -----

  /** While a dispatch or execution lease is held the authority cannot be minted, replaced, cleared or rebound. */
  lemma PinnedRefuses(m: Manager, input: MintInput, taskId: nat, t: Transition, now: int)
    requires Pinned(m)
    ensures Mint(m, input, taskId, now).0 == m && Mint(m, input, taskId, now).1.Err?
    ensures Replace(m, input, taskId, now).0 == m && Replace(m, input, taskId, now).1.Err?
    ensures Clear(m).0 == m && Clear(m).1.Err?
    ensures Accept(m, t, now).0 == m && Accept(m, t, now).1.Err?
    ensures Current(m, now) == m
  {
    hide Build, TransitionError, Rebind;
  }

  /** A failed mint or replace leaves the authority as it was, apart from dropping an expired one. */
  lemma FailedChangesNothing(m: Manager, input: MintInput, taskId: nat, now: int)
    ensures Mint(m, input, taskId, now).1.Err? ==>
              Mint(m, input, taskId, now).0 == m || Mint(m, input, taskId, now).0 == Current(m, now)
    ensures Replace(m, input, taskId, now).1.Err? ==>
              Replace(m, input, taskId, now).0 == m || Replace(m, input, taskId, now).0 == Current(m, now)
    ensures Current(m, now).active == m.active || (Current(m, now).active.None? && now >= m.active.value.grant.expiresAt)
  {
    hide Build;
  }

  /** A clone or its cleanup is under way, or a clone waits for its cleanup. */
  predicate LineageHeld(m: Manager) {
    m.reference.Some? || (m.active.Some? && m.active.value.pending.Some?)
  }

  /** The lineage refuses mint, replace and clear exactly while it is held, whatever the clock says, and nothing moves. */
  lemma LineageBusyExactly(m: Manager, input: MintInput, taskId: nat, now: int)
    ensures Mint(m, input, taskId, now).1 == Err(LineageBusy) <==> LineageHeld(m)
    ensures Replace(m, input, taskId, now).1 == Err(LineageBusy) <==> LineageHeld(m)
    ensures Clear(m).1 == Err(LineageBusy) <==> LineageHeld(m)
    ensures LineageHeld(m) ==>
              Mint(m, input, taskId, now).0 == m && Replace(m, input, taskId, now).0 == m && Clear(m).0 == m
  {
    hide GrantValid, InventoryValid;
  }

  /**
   An expired authority that nothing pins is no authority any more, and looking at it lets go of its lineage.
   But mint, replace and clear ask about the lineage first: they treat it as gone if and only if no lineage is held.
   */
  lemma ExpiredStandsAsideExactly(m: Manager, input: MintInput, taskId: nat, now: int)
    requires Sound(m) && m.active.Some? && !Pinned(m) && now >= m.active.value.grant.expiresAt
    ensures Current(m, now).active.None? && !LineageHeld(Current(m, now))
    ensures Mint(m, input, taskId, now) == Mint(Current(m, now), input, taskId, now) <==> !LineageHeld(m)
    ensures Replace(m, input, taskId, now) == Replace(Current(m, now), input, taskId, now) <==> !LineageHeld(m)
    ensures Clear(m).1.Ok? <==> !LineageHeld(m)
    ensures Clear(Current(m, now)).1 == Ok(false)
  {
    LineageBusyExactly(m, input, taskId, now);
    LineageBusyExactly(Current(m, now), input, taskId, now);
    hide Build, ActiveSound;
  }

  /** A mutation lease is granted exactly to the live guard of the active authority when no other mutation runs. */
  lemma DispatchGranted(m: Manager, g: Guard, now: int, later: int)
    requires Sound(m)
    ensures BeginDispatch(m, g, now, later).1.Ok? <==>
              m.active.Some? && m.dispatch.None? && GuardLive(m, g, now) && GuardLive(m, g, later)
    ensures BeginDispatch(m, g, now, later).1.Ok? ==>
              && g.token == m.active.value.token
              && BeginDispatch(m, g, now, later).0.dispatch == Some(BeginDispatch(m, g, now, later).1.value)
    ensures var next := BeginDispatch(m, g, now, later).0;
            next.active == m.active && next.revocation == m.revocation && next.execution == m.execution
            && (BeginDispatch(m, g, now, later).1.Err? ==> next.dispatch == m.dispatch)
  {
    hide ActiveSound;
  }
}
