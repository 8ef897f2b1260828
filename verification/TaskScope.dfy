/** Target scopes, task grants, and what a guard lets through. */
module TaskScope {
  import opened Prelude

  datatype Target =
    | Project(project: nat)
    | Page(project: nat, page: nat)
    | Record(project: nat, page: nat, record: nat)
    | Element(project: nat, page: nat, record: nat, element: nat)

  /** A scope covers itself and everything below it. */
  predicate Covers(scope: Target, target: Target) {
    if scope.project != target.project then false
    else if scope.Project? then true
    else if target.Project? || scope.page != target.page then false
    else if scope.Page? then true
    else if target.Page? || scope.record != target.record then false
    else if scope.Record? then true
    else target.Element? && scope.element == target.element
  }

  predicate Overlap(a: Target, b: Target) {
    Covers(a, b) || Covers(b, a)
  }

  // ----- The tree of scopes -----

  lemma CoversIsPartialOrder(a: Target, b: Target, c: Target)
    ensures Covers(a, a)
    ensures Covers(a, b) && Covers(b, c) ==> Covers(a, c)
    ensures Covers(a, b) && Covers(b, a) ==> a == b
  {
  }

  /** The scopes above any one target form a chain. */
  lemma AncestorsAreChained(a: Target, b: Target, t: Target)
    ensures Covers(a, t) && Covers(b, t) ==> Overlap(a, b)
  {
  }

  /** Two scopes overlap exactly when some target lies in both. */
  lemma OverlapIsSharedTarget(a: Target, b: Target)
    ensures Overlap(a, b) <==> exists t :: Covers(a, t) && Covers(b, t)
  {
    if Overlap(a, b) {
      var t := if Covers(a, b) then b else a;
      CoversIsPartialOrder(t, t, t);
      assert Covers(a, t) && Covers(b, t);
    } else {
      forall t ensures !(Covers(a, t) && Covers(b, t)) { AncestorsAreChained(a, b, t); }
    }
  }

  // ----- Grants -----

  datatype Mode = ObserveMode | CopyTestMode | ProductionMode

  datatype Operation =
    | StandardFieldPatch | T123CodeReplace | ZeroLeafPatch | ZeroResponsivePatch | ZeroShapeClone
    | ZeroPropertyPatch | ZeroElementClone | PageSeoPatch | PageHeadCodeReplace | StandardTemplateAdd
    | ReferenceClone | ReferenceCleanup | PageLifecycle

  datatype PublicationAction = Publish | Unpublish

  datatype Publication = Publication(actions: seq<PublicationAction>, targets: seq<Target>)

  /** The pages of every current project; its digest is the value itself. */
  type Owned = map<nat, set<nat>>

  datatype Inventory = Inventory(account: nat, owned: Owned)

  datatype Binding = Binding(account: nat, inventory: Inventory)

  datatype Grant = Grant(
    taskId: nat, mode: Mode, instruction: nat, issuedAt: int, expiresAt: int, binding: Binding,
    observe: seq<Target>, write: seq<Target>, operations: seq<Operation>, publication: Option<Publication>)

  const MAX_TARGETS := 256
  const MAX_TTL := 30 * 60 * 1000

  predicate Distinct<T(==)>(s: seq<T>) {
    forall j, k :: 0 <= j < k < |s| ==> s[j] != s[k]
  }

  predicate TargetList(s: seq<Target>) {
    |s| <= MAX_TARGETS && Distinct(s)
  }

  predicate Within(scopes: seq<Target>, target: Target) {
    exists k :: 0 <= k < |scopes| && Covers(scopes[k], target)
  }

  predicate ScopesApart(observe: seq<Target>, write: seq<Target>) {
    forall j, k :: 0 <= j < |observe| && 0 <= k < |write| ==> !Overlap(observe[j], write[k])
  }

  predicate PublicationValid(p: Publication, write: seq<Target>) {
    && p.actions != [] && Distinct(p.actions)
    && TargetList(p.targets) && p.targets != []
    && (forall k :: 0 <= k < |p.targets| ==> p.targets[k].Page?)
    && (forall k :: 0 <= k < |p.targets| ==> Within(write, p.targets[k]))
  }

  predicate ModeValid(g: Grant) {
    if g.mode.ObserveMode? then
      g.observe != [] && g.write == [] && g.operations == [] && g.publication.None?
    else
      g.write != [] && (g.mode.CopyTestMode? ==> g.observe != [])
  }

  /** What is demanded of a grant before a guard is built around it. */
  predicate GrantValid(g: Grant, live: Binding, now: int) {
    && g.issuedAt < g.expiresAt && g.expiresAt - g.issuedAt <= MAX_TTL
    && g.issuedAt <= now < g.expiresAt
    && g.binding == live
    && TargetList(g.observe) && TargetList(g.write)
    && ScopesApart(g.observe, g.write)
    && Distinct(g.operations)
    && ModeValid(g)
    && (g.publication.Some? ==> PublicationValid(g.publication.value, g.write))
  }

  // ----- What a guard allows -----

  predicate MayRead(g: Grant, t: Target) {
    Within(g.observe, t) || Within(g.write, t) || (g.publication.Some? && Within(g.publication.value.targets, t))
  }

  predicate MayChange(g: Grant, op: Operation, t: Target) {
    !g.mode.ObserveMode? && op in g.operations && Within(g.write, t)
  }

  predicate MayPublish(g: Grant, action: PublicationAction, t: Target) {
    && !g.mode.ObserveMode? && g.publication.Some?
    && action in g.publication.value.actions && Within(g.publication.value.targets, t)
  }

  /** In a valid grant nothing that may be written is above, below or inside anything that may only be read. */
  lemma WritableIsNeverObserved(g: Grant, live: Binding, now: int, t: Target, k: nat)
    requires GrantValid(g, live, now) && Within(g.write, t) && k < |g.observe|
    ensures !Covers(g.observe[k], t) && !Covers(t, g.observe[k])
  {
    var j :| 0 <= j < |g.write| && Covers(g.write[j], t);
    assert !Overlap(g.observe[k], g.write[j]);
    if Covers(g.observe[k], t) { AncestorsAreChained(g.observe[k], g.write[j], t); }
    if Covers(t, g.observe[k]) { CoversIsPartialOrder(g.write[j], t, g.observe[k]); }
  }

  /** Scopes are kept apart exactly when no target is both observable and writable. */
  lemma ApartExactly(observe: seq<Target>, write: seq<Target>)
    ensures ScopesApart(observe, write) <==> forall t :: !(Within(observe, t) && Within(write, t))
  {
    if ScopesApart(observe, write) {
      forall t ensures !(Within(observe, t) && Within(write, t)) {
        if Within(observe, t) && Within(write, t) {
          SharedOverlap(observe, write, t);
        }
      }
    } else {
      var j, k :| 0 <= j < |observe| && 0 <= k < |write| && Overlap(observe[j], write[k]);
      OverlapIsSharedTarget(observe[j], write[k]);
      var t :| Covers(observe[j], t) && Covers(write[k], t);
      assert Within(observe, t) && Within(write, t);
    }
  }

  lemma SharedOverlap(observe: seq<Target>, write: seq<Target>, t: Target)
    requires Within(observe, t) && Within(write, t)
    ensures !ScopesApart(observe, write)
  {
    var j :| 0 <= j < |observe| && Covers(observe[j], t);
    var k :| 0 <= k < |write| && Covers(write[k], t);
    AncestorsAreChained(observe[j], write[k], t);
  }

  /** Whatever may be published lies in the writable scope, and may be read. */
  lemma PublishedIsWritable(g: Grant, live: Binding, now: int, action: PublicationAction, t: Target)
    requires GrantValid(g, live, now) && MayPublish(g, action, t)
    ensures Within(g.write, t) && MayRead(g, t)
  {
    var targets := g.publication.value.targets;
    var k :| 0 <= k < |targets| && Covers(targets[k], t);
    assert Within(g.write, targets[k]);
    var j :| 0 <= j < |g.write| && Covers(g.write[j], targets[k]);
    CoversIsPartialOrder(g.write[j], targets[k], t);
    assert Covers(g.write[j], t);
  }
}
