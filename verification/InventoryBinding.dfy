/** Building the canonical form and deriving a live inventory from one probe, page by page. */
module InventoryBinding {
  import opened Prelude
  import opened Decimal
  import opened CanonicalInventory

  // ----- Page owners -----

  type Owners = map<string, string>

  function Claimed(owned: Owners, pages: seq<string>, owner: string): Owners {
    owned + map x | x in Elements(pages) :: owner
  }

  /** Gives every page of one project to it, unless some page already has an owner. */
  method ClaimPages(pages: seq<string>, owner: string, owned: Owners) returns (ok: bool, next: Owners)
    requires Distinct(pages)
    ensures ok <==> owned.Keys !! Elements(pages)
    ensures ok ==> next == Claimed(owned, pages, owner)
  {
    next := owned;
    var k := 0;
    while k < |pages|
      invariant 0 <= k <= |pages|
      invariant owned.Keys !! Elements(pages[..k])
      invariant next == Claimed(owned, pages[..k], owner)
    {
      ElementsSnoc(pages, k);
      if pages[k] in next {
        NotYet(pages, k);
        assert pages[k] in Elements(pages);
        return false, next;
      }
      next := next[pages[k] := owner];
      k := k + 1;
    }
    assert pages[..k] == pages;
    return true, next;
  }

  lemma ElementsSnoc(s: seq<string>, k: nat)
    requires k < |s|
    ensures Elements(s[..k + 1]) == Elements(s[..k]) + {s[k]}
  {
    forall x ensures x in Elements(s[..k + 1]) <==> x in Elements(s[..k]) + {s[k]} {
      if x in Elements(s[..k]) {
        var j :| 0 <= j < k && s[..k][j] == x;
        assert s[..k + 1][j] == x;
      }
      if x == s[k] { assert s[..k + 1][k] == x; }
      if x in Elements(s[..k + 1]) {
        var j :| 0 <= j < k + 1 && s[..k + 1][j] == x;
        if j < k { assert s[..k][j] == x; }
      }
    }
  }

  lemma NotYet(s: seq<string>, k: nat)
    requires Distinct(s) && k < |s|
    ensures s[k] !in Elements(s[..k])
  {
  }

  /** What the loop over projects has established: each page seen so far belongs to exactly the project that lists it. */
  ghost predicate OwnedSoFar(owned: Owners, ids: seq<string>, pages: map<string, seq<string>>)
  {
    && (forall a :: 0 <= a < |ids| ==> ids[a] in pages)
    && (forall a, x :: 0 <= a < |ids| && x in Elements(pages[ids[a]]) ==> x in owned && owned[x] == ids[a])
    && (forall x :: x in owned ==> owned[x] in Elements(ids) && owned[x] in pages && x in Elements(pages[owned[x]]))
  }

  lemma OwnedExtends(owned: Owners, ids: seq<string>, pages: map<string, seq<string>>, k: nat)
    requires k < |ids| && Distinct(ids) && OwnedSoFar(owned, ids[..k], pages) && ids[k] in pages
    requires owned.Keys !! Elements(pages[ids[k]])
    ensures OwnedSoFar(Claimed(owned, pages[ids[k]], ids[k]), ids[..k + 1], pages)
  {
    var next := Claimed(owned, pages[ids[k]], ids[k]);
    ElementsSnoc(ids, k);
    var upTo := ids[..k + 1];
    forall a, x | 0 <= a < |upTo| && x in Elements(pages[upTo[a]]) ensures x in next && next[x] == upTo[a] {
      if a < k { assert ids[..k][a] == upTo[a]; }
    }
  }

  lemma OwnedMeansApart(owned: Owners, ids: seq<string>, pages: map<string, seq<string>>)
    requires OwnedSoFar(owned, ids, pages) && Distinct(ids)
    ensures forall a, b :: 0 <= a < b < |ids| ==> Elements(pages[ids[a]]) !! Elements(pages[ids[b]])
  {
    forall a, b | 0 <= a < b < |ids| ensures Elements(pages[ids[a]]) !! Elements(pages[ids[b]]) {
      forall x | x in Elements(pages[ids[a]]) ensures x !in Elements(pages[ids[b]]) {
        assert owned[x] == ids[a];
      }
    }
  }

  // ----- The canonical form -----

  predicate PairwiseApart(ids: seq<string>, pages: map<string, seq<string>>)
    requires forall a :: 0 <= a < |ids| ==> ids[a] in pages
  {
    forall a, b :: 0 <= a < b < |ids| ==> Elements(pages[ids[a]]) !! Elements(pages[ids[b]])
  }

  /** Fills the owner map in the sorted order of the projects. */
  method OwnersUnique(ids: seq<string>, pages: map<string, seq<string>>) returns (unique: bool)
    requires Distinct(ids)
    requires forall a :: 0 <= a < |ids| ==> ids[a] in pages && Distinct(pages[ids[a]])
    ensures unique <==> PairwiseApart(ids, pages)
  {
    var owned: Owners := map[];
    var k := 0;
    while k < |ids|
      invariant 0 <= k <= |ids|
      invariant OwnedSoFar(owned, ids[..k], pages)
    {
      var ok, next := ClaimPages(pages[ids[k]], ids[k], owned);
      if !ok {
        Clash(owned, ids, pages, k);
        return false;
      }
      OwnedExtends(owned, ids, pages, k);
      owned := next;
      k := k + 1;
    }
    assert ids[..k] == ids;
    OwnedMeansApart(owned, ids, pages);
    return true;
  }

  lemma Clash(owned: Owners, ids: seq<string>, pages: map<string, seq<string>>, k: nat)
    requires k < |ids| && OwnedSoFar(owned, ids[..k], pages)
    requires forall a :: 0 <= a < |ids| ==> ids[a] in pages
    requires !(owned.Keys !! Elements(pages[ids[k]]))
    ensures !PairwiseApart(ids, pages)
  {
    var x :| x in owned.Keys && x in Elements(pages[ids[k]]);
    assert owned[x] in Elements(ids[..k]);
    var a :| 0 <= a < k && ids[..k][a] == owned[x];
    assert x in Elements(pages[ids[a]]);
  }

  method CanonicalLiveInventory(inv: LiveInventory) returns (r: Result<Form, Error>)
    requires IsRecord(inv)
    ensures r == CanonicalForm(inv)
  {
    hide Canonical, CompareIds, Sort;
    if inv.account.None? { return Err(AccountRequired); }
    if !AllCanonical(inv.projectIds) { return Err(NotCanonical); }
    var projectIds := Sort(inv.projectIds);
    if inv.projectIds == [] || !Distinct(inv.projectIds) { return Err(ProjectsInvalid); }
    if !AllCanonical(inv.owners) || !PagesCanonical(inv) { return Err(NotCanonical); }
    if !PagesDistinct(inv) { return Err(PagesDuplicated); }
    var owners := Sort(inv.owners);
    SortedOwners(inv);
    SortIsCanonical(inv.owners);
    var unique := OwnersUnique(owners, inv.pages);
    ApartEitherWay(inv);
    if !unique { return Err(PageClaimedTwice); }
    if owners != projectIds { return Err(OwnershipMismatch); }
    return Ok(Form(inv.account.value, projectIds, Listing(owners, inv.pages)));
  }

  lemma ApartEitherWay(inv: LiveInventory)
    requires IsRecord(inv) && AllCanonical(inv.owners)
    ensures forall k :: 0 <= k < |Sort(inv.owners)| ==> Sort(inv.owners)[k] in inv.pages
    ensures PairwiseApart(Sort(inv.owners), inv.pages) <==> OneOwnerEach(inv)
  {
    hide Canonical, CompareIds, Sort;
    SortedOwners(inv);
    SortIsCanonical(inv.owners);
    OwnersListed(inv);
    var ids := Sort(inv.owners);
    if PairwiseApart(ids, inv.pages) {
      forall p <- inv.pages, q <- inv.pages | p != q ensures Elements(inv.pages[p]) !! Elements(inv.pages[q]) {
        var a :| 0 <= a < |ids| && ids[a] == p;
        var b :| 0 <= b < |ids| && ids[b] == q;
        if a > b { assert Elements(inv.pages[ids[b]]) !! Elements(inv.pages[ids[a]]); }
      }
    }
    if OneOwnerEach(inv) {
      forall a, b | 0 <= a < b < |ids| ensures Elements(inv.pages[ids[a]]) !! Elements(inv.pages[ids[b]]) {}
    }
  }

  // ----- Deriving the inventory from a probe -----

  datatype ProjectProbe = ProjectProbe(
    id: string, pageIds: seq<string>, pagination: bool, cardCount: int, expectedCount: Option<int>)

  /** What one same-session probe of the editor saw; `account` is the fingerprint when a safe identity was found. */
  datatype Probe = Probe(
    account: Option<string>, keyValid: bool,
    projectIds: seq<string>, pagination: bool, cardCount: int, expectedCount: Option<int>, projects: seq<ProjectProbe>)

  datatype Blocked = AccountUnavailable | IncompleteProjects | IncompletePages | AmbiguousOwnership | KeyUnavailable

  function ProbeIds(ps: seq<ProjectProbe>): seq<string> {
    seq(|ps|, k requires 0 <= k < |ps| => ps[k].id)
  }

  function InsertProbe(p: ProjectProbe, ps: seq<ProjectProbe>): seq<ProjectProbe> {
    if ps == [] then [p]
    else if CompareIds(p.id, ps[0].id) <= 0 then [p] + ps
    else [ps[0]] + InsertProbe(p, ps[1..])
  }

  function SortProbes(ps: seq<ProjectProbe>): seq<ProjectProbe> {
    if ps == [] then [] else InsertProbe(ps[0], SortProbes(ps[1..]))
  }

  lemma {:induction false} InsertProbeIds(p: ProjectProbe, ps: seq<ProjectProbe>)
    ensures ProbeIds(InsertProbe(p, ps)) == Insert(p.id, ProbeIds(ps))
  {
    hide CompareIds, ProbeIds;
    ProbeIdsCons(p, ps);
    if ps == [] {
      NoProbes();
      ProbeIdsCons(p, []);
      assert [p] + [] == [p] && [p.id] + [] == [p.id];
    } else {
      ProbeIdsTail(ps);
      if CompareIds(p.id, ps[0].id) > 0 {
        InsertProbeIds(p, ps[1..]);
        ProbeIdsCons(ps[0], InsertProbe(p, ps[1..]));
      }
    }
  }

  lemma {:induction false} InsertProbeKeeps(p: ProjectProbe, ps: seq<ProjectProbe>)
    ensures multiset(InsertProbe(p, ps)) == multiset{p} + multiset(ps)
  {
    hide CompareIds;
    if ps != [] && CompareIds(p.id, ps[0].id) > 0 {
      InsertProbeKeeps(p, ps[1..]);
      assert ps == [ps[0]] + ps[1..];
    }
  }

  lemma ProbeIdsCons(p: ProjectProbe, ps: seq<ProjectProbe>)
    ensures ProbeIds([p] + ps) == [p.id] + ProbeIds(ps)
  {
  }

  lemma ProbeIdsTail(ps: seq<ProjectProbe>)
    requires ps != []
    ensures ProbeIds(ps) != [] && ProbeIds(ps)[0] == ps[0].id && ProbeIds(ps)[1..] == ProbeIds(ps[1..])
  {
  }

  lemma {:induction false} SortProbeIds(ps: seq<ProjectProbe>)
    ensures ProbeIds(SortProbes(ps)) == Sort(ProbeIds(ps))
    ensures multiset(SortProbes(ps)) == multiset(ps) && |SortProbes(ps)| == |ps|
  {
    hide ProbeIds, Insert, InsertProbe, CompareIds;
    if ps != [] {
      SortProbeIds(ps[1..]);
      InsertProbeIds(ps[0], SortProbes(ps[1..]));
      InsertProbeKeeps(ps[0], SortProbes(ps[1..]));
      ProbeIdsTail(ps);
      assert ps == [ps[0]] + ps[1..];
    } else {
      NoProbes();
    }
    assert |multiset(SortProbes(ps))| == |multiset(ps)|;
  }

  lemma NoProbes()
    ensures ProbeIds([]) == []
  {
  }

  predicate ProjectsFine(probe: Probe) {
    && probe.projectIds != [] && Distinct(probe.projectIds) && AllCanonical(probe.projectIds)
    && !probe.pagination && probe.cardCount == |probe.projectIds| && probe.expectedCount == Some(|probe.projectIds|)
  }

  predicate ProjectFine(p: ProjectProbe) {
    && !p.pagination && Distinct(p.pageIds) && AllCanonical(p.pageIds)
    && p.cardCount == |p.pageIds| && p.expectedCount == Some(|p.pageIds|)
  }

  predicate AllFine(ps: seq<ProjectProbe>) {
    forall p :: p in ps ==> ProjectFine(p)
  }

  predicate ProbesApart(ps: seq<ProjectProbe>) {
    forall p, q :: p in ps && q in ps && p.id != q.id ==> Elements(p.pageIds) !! Elements(q.pageIds)
  }

  /** A complete probe, in whatever order its parts are listed. */
  predicate ProbeFine(probe: Probe) {
    && probe.account.Some? && probe.keyValid && ProjectsFine(probe)
    && multiset(ProbeIds(probe.projects)) == multiset(probe.projectIds)
    && AllFine(probe.projects) && ProbesApart(probe.projects)
  }

  lemma SameProbes(ps: seq<ProjectProbe>)
    ensures forall p :: p in ps <==> p in SortProbes(ps)
    ensures AllFine(SortProbes(ps)) == AllFine(ps) && ProbesApart(SortProbes(ps)) == ProbesApart(ps)
  {
    SortProbeIds(ps);
    forall p ensures p in ps <==> p in SortProbes(ps) { assert p in multiset(ps) <==> p in multiset(SortProbes(ps)); }
  }

  /** Sorting decides equality up to order for any ids, canonical or not, once one side is canonical and distinct. */
  lemma SortedIdsMatch(ids: seq<string>, projectIds: seq<string>)
    requires AllCanonical(projectIds) && Distinct(projectIds)
    ensures Sort(ids) == Sort(projectIds) <==> multiset(ids) == multiset(projectIds)
    ensures Sort(ids) == Sort(projectIds) ==> Distinct(ids) && AllCanonical(ids)
  {
    hide Canonical, CompareIds, Sort;
    SortKeeps(ids);
    SortKeeps(projectIds);
    MultisetDistinct(projectIds);
    MultisetDistinct(ids);
    if multiset(ids) == multiset(projectIds) {
      SameElements(ids, projectIds);
      SortDecides(ids, projectIds);
    }
  }

  // ----- The loop over projects -----

  ghost predicate CollectedSoFar(es: seq<ProjectProbe>, k: nat, pages: map<string, seq<string>>, owned: Owners)
    requires k <= |es|
  {
    && pages.Keys == Elements(ProbeIds(es)[..k])
    && (forall a :: 0 <= a < k ==> ProjectFine(es[a]) && es[a].id in pages && pages[es[a].id] == Sort(es[a].pageIds))
    && OwnedSoFar(owned, ProbeIds(es)[..k], pages)
  }

  lemma SortedPages(p: ProjectProbe)
    requires ProjectFine(p)
    ensures Distinct(Sort(p.pageIds)) && AllCanonical(Sort(p.pageIds)) && Elements(Sort(p.pageIds)) == Elements(p.pageIds)
  {
    SortIsCanonical(p.pageIds);
  }

  lemma CollectOne(es: seq<ProjectProbe>, k: nat, pages: map<string, seq<string>>, owned: Owners)
    requires k < |es| && Distinct(ProbeIds(es)) && CollectedSoFar(es, k, pages, owned) && ProjectFine(es[k])
    requires owned.Keys !! Elements(Sort(es[k].pageIds))
    ensures CollectedSoFar(es, k + 1, pages[es[k].id := Sort(es[k].pageIds)],
                           Claimed(owned, Sort(es[k].pageIds), es[k].id))
  {
    hide Canonical, CompareIds, Sort, AllCanonical;
    var ids := ProbeIds(es);
    var next := pages[es[k].id := Sort(es[k].pageIds)];
    ElementsSnoc(ids, k);
    NotYet(ids, k);
    forall a | 0 <= a < k ensures es[a].id in next && next[es[a].id] == pages[es[a].id] { assert ids[a] != ids[k]; }
    OwnedReads(owned, ids[..k], pages, next);
    OwnedExtends(owned, ids, next, k);
  }

  lemma OwnedReads(owned: Owners, ids: seq<string>, pages: map<string, seq<string>>, next: map<string, seq<string>>)
    requires OwnedSoFar(owned, ids, pages)
    requires forall a :: 0 <= a < |ids| ==> ids[a] in next && next[ids[a]] == pages[ids[a]]
    ensures OwnedSoFar(owned, ids, next)
  {
    forall x | x in owned ensures owned[x] in next && x in Elements(next[owned[x]]) {
      var a :| 0 <= a < |ids| && ids[a] == owned[x];
    }
  }

  lemma CollectClash(es: seq<ProjectProbe>, k: nat, pages: map<string, seq<string>>, owned: Owners)
    requires k < |es| && Distinct(ProbeIds(es)) && CollectedSoFar(es, k, pages, owned) && ProjectFine(es[k])
    requires !(owned.Keys !! Elements(Sort(es[k].pageIds)))
    ensures !ProbesApart(es)
  {
    hide Canonical, CompareIds, Sort, AllCanonical, Distinct;
    var ids := ProbeIds(es);
    var x :| x in owned.Keys && x in Elements(Sort(es[k].pageIds));
    assert owned[x] in Elements(ids[..k]);
    var a :| 0 <= a < k && ids[..k][a] == owned[x];
    SortedPages(es[a]);
    SortedPages(es[k]);
    IdsDiffer(es, a, k);
    assert es[a] in es && es[k] in es && x in Elements(es[a].pageIds) && x in Elements(es[k].pageIds);
  }

  lemma IdsDiffer(es: seq<ProjectProbe>, a: nat, k: nat)
    requires a < k < |es| && Distinct(ProbeIds(es))
    ensures es[a].id != es[k].id
  {
    assert ProbeIds(es)[a] != ProbeIds(es)[k];
  }

  /** Project `k` is the first that stops the loop: incomplete itself, or sharing a page with a project before it. */
  predicate StopsAt(es: seq<ProjectProbe>, k: nat, why: Blocked) {
    && k < |es| && AllFine(es[..k]) && ProbesApart(es[..k])
    && (if !ProjectFine(es[k]) then why.IncompletePages? else why.AmbiguousOwnership? && !ProbesApart(es[..k + 1]))
  }

  lemma CollectedPrefix(es: seq<ProjectProbe>, k: nat, j: nat, pages: map<string, seq<string>>, owned: Owners)
    requires Distinct(ProbeIds(es)) && k <= j <= |es| && CollectedSoFar(es, k, pages, owned)
    ensures Distinct(ProbeIds(es[..j])) && CollectedSoFar(es[..j], k, pages, owned)
  {
    hide ProjectFine, Sort, OwnedSoFar;
    var ids := ProbeIds(es);
    assert ProbeIds(es[..j]) == ids[..j];
    assert ids[..j][..k] == ids[..k];
    forall a, b | 0 <= a < b < j ensures ids[..j][a] != ids[..j][b] { assert ids[a] != ids[b]; }
  }

  lemma CollectStops(es: seq<ProjectProbe>, k: nat, pages: map<string, seq<string>>, owned: Owners)
    requires Distinct(ProbeIds(es)) && k < |es| && CollectedSoFar(es, k, pages, owned)
    ensures !ProjectFine(es[k]) ==> StopsAt(es, k, IncompletePages)
    ensures ProjectFine(es[k]) && !(owned.Keys !! Elements(Sort(es[k].pageIds))) ==> StopsAt(es, k, AmbiguousOwnership)
  {
    hide ProjectFine, Sort, CollectedSoFar, AllFine, ProbesApart, Distinct, Elements;
    CollectedPrefix(es, k, k, pages, owned);
    CollectedAll(es[..k], pages, owned);
    if ProjectFine(es[k]) && !(owned.Keys !! Elements(Sort(es[k].pageIds))) {
      CollectedPrefix(es, k, k + 1, pages, owned);
      CollectClash(es[..k + 1], k, pages, owned);
    }
  }

  method CollectProjects(es: seq<ProjectProbe>) returns (r: Result<map<string, seq<string>>, Blocked>)
    requires Distinct(ProbeIds(es)) && AllCanonical(ProbeIds(es))
    ensures r.Ok? <==> AllFine(es) && ProbesApart(es)
    ensures r.Err? ==> exists k :: StopsAt(es, k, r.error)
    ensures r.Ok? ==>
              && r.value.Keys == Elements(ProbeIds(es))
              && (forall p :: p in es ==> p.id in r.value && r.value[p.id] == Sort(p.pageIds))
  {
    hide Canonical, CompareIds, Sort, AllCanonical, ProjectFine;
    var pages: map<string, seq<string>> := map[];
    var owned: Owners := map[];
    var k := 0;
    while k < |es|
      invariant 0 <= k <= |es|
      invariant CollectedSoFar(es, k, pages, owned)
    {
      CollectStops(es, k, pages, owned);
      if !ProjectFine(es[k]) {
        assert es[k] in es;
        return Err(IncompletePages);
      }
      SortedPages(es[k]);
      var pageIds := Sort(es[k].pageIds);
      var ok, next := ClaimPages(pageIds, es[k].id, owned);
      if !ok {
        CollectClash(es, k, pages, owned);
        return Err(AmbiguousOwnership);
      }
      CollectOne(es, k, pages, owned);
      pages, owned := pages[es[k].id := pageIds], next;
      k := k + 1;
    }
    CollectedAll(es, pages, owned);
    return Ok(pages);
  }

  lemma CollectedAll(es: seq<ProjectProbe>, pages: map<string, seq<string>>, owned: Owners)
    requires Distinct(ProbeIds(es)) && CollectedSoFar(es, |es|, pages, owned)
    ensures AllFine(es) && ProbesApart(es) && pages.Keys == Elements(ProbeIds(es))
    ensures forall p :: p in es ==> p.id in pages && pages[p.id] == Sort(p.pageIds)
  {
    hide Canonical, CompareIds, Sort, AllCanonical, Distinct;
    var ids := ProbeIds(es);
    assert ids[..|es|] == ids;
    OwnedMeansApart(owned, ids, pages);
    forall p, q | p in es && q in es && p.id != q.id ensures Elements(p.pageIds) !! Elements(q.pageIds) {
      var a :| 0 <= a < |es| && es[a] == p;
      var b :| 0 <= b < |es| && es[b] == q;
      SortedPages(p);
      SortedPages(q);
      if a < b { assert Elements(pages[ids[a]]) !! Elements(pages[ids[b]]); }
      if b < a { assert Elements(pages[ids[b]]) !! Elements(pages[ids[a]]); }
    }
  }

  /** The inventory says of every project exactly what the probe said. */
  predicate Reports(inv: LiveInventory, probe: Probe) {
    && inv.account == probe.account
    && Elements(inv.projectIds) == Elements(probe.projectIds)
    && forall p :: p in probe.projects ==> p.id in inv.pages && Elements(inv.pages[p.id]) == Elements(p.pageIds)
  }

  /** What is missing, in the order in which it is asked: the account, the projects, the pages by ascending project, the key. */
  predicate WhyBlocked(probe: Probe, why: Blocked) {
    if probe.account.None? then why.AccountUnavailable?
    else if !ProjectsFine(probe) || multiset(ProbeIds(probe.projects)) != multiset(probe.projectIds) then why.IncompleteProjects?
    else if !AllFine(probe.projects) || !ProbesApart(probe.projects) then
      exists k: nat :: k < |probe.projects| && StopsAt(SortProbes(probe.projects), k, why)
    else why.KeyUnavailable?
  }

  /** A complete probe, and only that, is bound; the derived inventory always has a canonical form. */
  method DeriveInventory(probe: Probe) returns (r: Result<LiveInventory, Blocked>)
    ensures r.Ok? <==> ProbeFine(probe)
    ensures r.Ok? ==> IsRecord(r.value) && CanonicalForm(r.value).Ok? && Reports(r.value, probe)
    ensures r.Ok? ==> r.value.owners == r.value.projectIds && StrictlyAscending(r.value.projectIds)
    ensures r.Err? ==> WhyBlocked(probe, r.error)
  {
    hide Canonical, CompareIds, Sort, SortProbes, ProbesApart, AllFine, CanonicalForm;
    if probe.account.None? { return Err(AccountUnavailable); }
    var projectIds := Sort(probe.projectIds);
    if !ProjectsFine(probe) { return Err(IncompleteProjects); }
    var entries := SortProbes(probe.projects);
    SortProbeIds(probe.projects);
    SameProbes(probe.projects);
    SortedIdsMatch(ProbeIds(probe.projects), probe.projectIds);
    SortIsCanonical(probe.projectIds);
    if ProbeIds(entries) != projectIds { return Err(IncompleteProjects); }
    var pages := CollectProjects(entries);
    if pages.Err? { return Err(pages.error); }
    if !probe.keyValid { return Err(KeyUnavailable); }
    var inv := LiveInventory(probe.account, projectIds, projectIds, pages.value);
    DerivedIsAcceptable(inv, entries);
    FormExistsExactly(inv);
    return Ok(inv);
  }

  lemma DerivedIsAcceptable(inv: LiveInventory, es: seq<ProjectProbe>)
    requires inv.account.Some? && inv.projectIds == inv.owners == ProbeIds(es) && inv.projectIds != []
    requires Distinct(inv.projectIds) && AllCanonical(inv.projectIds)
    requires AllFine(es) && ProbesApart(es) && inv.pages.Keys == Elements(ProbeIds(es))
    requires forall p :: p in es ==> p.id in inv.pages && inv.pages[p.id] == Sort(p.pageIds)
    ensures IsRecord(inv) && Acceptable(inv)
    ensures forall p :: p in es ==> Elements(inv.pages[p.id]) == Elements(p.pageIds)
  {
    hide Canonical, CompareIds, Sort, AllCanonical, Distinct, ProjectFine;
    forall id | id in inv.pages ensures exists p :: p in es && p.id == id {
      var k :| 0 <= k < |ProbeIds(es)| && ProbeIds(es)[k] == id;
      assert es[k] in es;
    }
    forall p | p in es ensures Elements(inv.pages[p.id]) == Elements(p.pageIds)
                               && Distinct(inv.pages[p.id]) && AllCanonical(inv.pages[p.id]) { SortedPages(p); }
  }
}
