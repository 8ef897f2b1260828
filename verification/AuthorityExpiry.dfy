/** An expired authority whose clone is still pending: who is refused, for how long, and how it comes about. */
module AuthorityExpiry {
  import opened Prelude
  import opened TaskScope
  import opened TaskAuthority
  import opened AuthorityRuns

  predicate Expired(m: Manager, now: int) {
    m.active.Some? && !Pinned(m) && now >= m.active.value.grant.expiresAt
  }

  predicate GrantCall(e: Event) { e.MintEvent? || e.ReplaceEvent? || e.ClearEvent? }

  lemma GrantCallRefused(s: State, e: Event)
    requires LineageHeld(s.manager) && GrantCall(e)
    ensures Step(s, e) == s
  {
    hide Mint, Replace, Clear;
    if e.ClearEvent? {
      LineageBusyExactly(s.manager, MintInput(false, 0, ObserveMode, [], [], [], None, Binding(0, Inventory(0, map[])),
                                              None, None), 0, 0);
    } else {
      LineageBusyExactly(s.manager, e.input, e.taskId, e.now);
    }
  }

  /** Asking again does not help: no number of mint, replace and clear calls moves a held lineage. */
  lemma {:induction false} GrantCallsNeverRecover(s: State, events: seq<Event>)
    requires LineageHeld(s.manager) && forall k :: 0 <= k < |events| ==> GrantCall(events[k])
    ensures Run(s, events) == s
    decreases |events|
  {
    hide Step, LineageHeld;
    if events != [] {
      GrantCallsNeverRecover(s, events[..|events| - 1]);
      GrantCallRefused(s, events[|events| - 1]);
    }
  }

  /** One look at the expired authority is enough: after it none of the three is refused on behalf of the lineage. */
  lemma LookRecovers(s: State, events: seq<Event>, input: MintInput, taskId: nat, now: int, later: int)
    requires Inv(s) && LineageHeld(s.manager) && Expired(s.manager, now)
    requires forall k :: 0 <= k < |events| ==> GrantCall(events[k])
    ensures var m := Run(s, events + [Look(now)]).manager;
            && m == Current(s.manager, now) && m.active.None?
            && Mint(m, input, taskId, later).1 != Err(LineageBusy)
            && Replace(m, input, taskId, later).1 != Err(LineageBusy)
            && Clear(m).1 == Ok(false)
  {
    GrantCallsNeverRecover(s, events);
    assert (events + [Look(now)])[..|events|] == events;
    InvSound(s);
    hide Inv, Sound;
    ExpiredStandsAsideExactly(s.manager, input, taskId, now);
    LineageBusyExactly(Current(s.manager, now), input, taskId, later);
  }

  // ----- A run that gets there -----

  const PAGES := Inventory(1, map[1 := {1}])

  function Request(): MintInput {
    MintInput(true, 0, ProductionMode, [], [Project(1)], [ReferenceClone, ReferenceCleanup], None,
              Binding(1, PAGES), Some(PAGES), None)
  }

  function Evidence(): CreateEvidence {
    CreateEvidence(0, Page(1, 1), Page(1, 2), [1], [1], [1, 2], [1, 2], [10], [11], true, true)
  }

  function Cloning(): seq<Event> {
    [MintEvent(Request(), 0, 0)] + [BeginCreate(0, Page(1, 1), 0)] + [EndCreate(0, Some(Evidence()), 0)]
  }

  function Issued(token: nat, taskId: nat, at: int, inv: Inventory, pending: Option<Receipt>): Active {
    Active(token, Grant(taskId, ProductionMode, 0, at, at + DEFAULT_TTL, Binding(1, inv), [], [Project(1)],
                        [ReferenceClone, ReferenceCleanup], None), Some(inv), pending)
  }

  lemma IssuedIsValid(token: nat, taskId: nat, at: int, inv: Inventory, pending: Option<Receipt>)
    ensures var g := Issued(token, taskId, at, inv, pending).grant; GrantValid(g, g.binding, at)
  {
  }

  lemma WritesProject(token: nat, taskId: nat, at: int, inv: Inventory, pending: Option<Receipt>, t: Target)
    requires t.project == 1
    ensures var g := Issued(token, taskId, at, inv, pending).grant;
            Within(g.write, t) && MayChange(g, ReferenceClone, t) && MayChange(g, ReferenceCleanup, t)
  {
    var g := Issued(token, taskId, at, inv, pending).grant;
    assert Covers(g.write[0], t);
    assert ReferenceClone == g.operations[0] && ReferenceCleanup == g.operations[1];
  }

  lemma OneProjectIsValid(pages: set<nat>)
    ensures InventoryValid(Inventory(1, map[1 := pages]))
  {
    assert 1 in map[1 := pages];
  }

  lemma RequestBuilds(taskId: nat, token: nat, now: nat)
    requires now <= MAX_TTL
    ensures Build(Request(), taskId, token, now) == Ok(Issued(token, taskId, now, PAGES, None))
  {
    IssuedIsValid(token, taskId, now, PAGES, None);
    OneProjectIsValid({1});
    hide GrantValid, InventoryValid;
  }

  /** Minted on an empty process. */
  function JustMinted(): State {
    START.(manager := Activated(INIT, Issued(1, 0, 0, PAGES, None)), minted := {GuardOf(Issued(1, 0, 0, PAGES, None))})
  }

  lemma Minted()
    ensures Step(START, MintEvent(Request(), 0, 0)) == JustMinted()
  {
    RequestBuilds(0, 1, 0);
    hide Build;
  }

  /** The clone is under way. */
  function CloneSent(): State {
    var g := Issued(1, 0, 0, PAGES, None).grant;
    JustMinted().(manager := JustMinted().manager.(reference := Some(2), next := 3),
              works := map[0 := Work(2, 0, Scoped(g), Page(1, 1), None, [])])
  }

  lemma Sent()
    ensures Step(JustMinted(), BeginCreate(0, Page(1, 1), 0)) == CloneSent()
  {
    WritesProject(1, 0, 0, PAGES, None, Page(1, 1));
    hide MayChange, Within;
  }

  const WITH_CLONE := Inventory(1, map[1 := {1, 2}])
  const CLONED := Receipt(0, Page(1, 1), Page(1, 2))

  lemma EvidenceVerified()
    ensures CreateVerified(Page(1, 1), Evidence())
  {
    var e := Evidence();
    assert e.baseline[0] == 1 && e.createdPages[0] == 1 && e.createdPages[1] == 2;
    assert forall id :: id in e.createdPages ==> id == 1 || id == 2;
    assert e.createdRecords[0] == 11;
  }

  lemma EvidenceIds()
    ensures Ids([1]) == {1} && Ids([1, 2]) == {1, 2}
  {
    var one: seq<nat>, two: seq<nat> := [1], [1, 2];
    assert one[0] == 1 && two[0] == 1 && two[1] == 2;
    assert 1 in Ids(one) && 1 in Ids(two) && 2 in Ids(two);
  }

  function Moved(): Transition {
    Transition(Clone, 0, Scoped(Issued(1, 0, 0, PAGES, None).grant), 2, CLONED, [1], [1, 2])
  }

  lemma MoveAccepted(m: Manager)
    requires m == CloneSent().manager.(eligible := {CLONED})
    ensures Accept(m, Moved(), 0)
         == (Activated(m, Issued(3, 0, 0, WITH_CLONE, Some(CLONED))).(eligible := {}),
             Ok(Issued(3, 0, 0, WITH_CLONE, Some(CLONED))))
  {
    EvidenceIds();
    EvidenceVerified();
    VerifiedCloneIsExact(Page(1, 1), Evidence());
    WritesProject(1, 0, 0, PAGES, None, Page(1, 1));
    WritesProject(1, 0, 0, PAGES, None, Page(1, 2));
    IssuedIsValid(3, 0, 0, WITH_CLONE, Some(CLONED));
    assert Rebound(PAGES, 1, [1, 2]) == WITH_CLONE;
    OneProjectIsValid({1, 2});
    hide InventoryValid;
    hide CreateVerified, ExactChange, Ids, GrantValid, MayChange, Within;
    assert TransitionError(m, Moved(), 0).None?;
    hide TransitionError;
    assert Rebind(m.active.value, Moved(), m.next) == Issued(3, 0, 0, WITH_CLONE, Some(CLONED));
    assert m.eligible - {CLONED} == {};
  }

  lemma Finished()
    ensures var m := Step(CloneSent(), EndCreate(0, Some(Evidence()), 0)).manager;
            && m.active == Some(Issued(3, 0, 0, WITH_CLONE, Some(CLONED)))
            && m.reference.None? && m.dispatch.None? && m.execution.None?
  {
    EvidenceVerified();
    MoveAccepted(CloneSent().manager.(eligible := {CLONED}));
    hide CreateVerified, Accept, Scoped;
  }

  /**
   A minted authority clones a page and expires before the cleanup: looking at it would show no authority, and then
   a new one could be minted, but as it stands mint, replace and clear are all refused.
   */
  lemma ExpiredCloneBlocksMint()
    ensures var m := Run(START, Cloning()).manager;
            var now := DEFAULT_TTL;
            && LineageHeld(m) && Expired(m, now) && Current(m, now).active.None?
            && Mint(m, Request(), 1, now) == (m, Err(LineageBusy))
            && Replace(m, Request(), 1, now) == (m, Err(LineageBusy))
            && Clear(m) == (m, Err(LineageBusy))
            && Mint(Current(m, now), Request(), 1, now).1.Ok?
  {
    CloningEnds();
    hide Run;
    var m := Run(START, Cloning()).manager;
    LineageBusyExactly(m, Request(), 1, DEFAULT_TTL);
    RequestBuilds(1, Current(m, DEFAULT_TTL).next, DEFAULT_TTL);
    hide Build;
  }

  lemma CloningEnds()
    ensures var m := Run(START, Cloning()).manager;
            && m.active == Some(Issued(3, 0, 0, WITH_CLONE, Some(CLONED)))
            && m.reference.None? && m.dispatch.None? && m.execution.None?
  {
    hide Step;
    var a, b, c := MintEvent(Request(), 0, 0), BeginCreate(0, Page(1, 1), 0), EndCreate(0, Some(Evidence()), 0);
    RunSnoc([], a);
    RunSnoc([] + [a], b);
    RunSnoc([] + [a] + [b], c);
    assert [] + [a] == [a];
    Minted();
    Sent();
    Finished();
  }

  lemma RunSnoc(events: seq<Event>, e: Event)
    ensures Run(START, events + [e]) == Step(Run(START, events), e)
  {
    assert (events + [e])[..|events|] == events;
  }
}
