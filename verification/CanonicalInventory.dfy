/** The canonical form of a live inventory: sorted, unique, and with one owner for every page. */
module CanonicalInventory {
  import opened Prelude
  import opened Decimal

  predicate Distinct(s: seq<string>) {
    forall j, k :: 0 <= j < k < |s| ==> s[j] != s[k]
  }

  predicate AllCanonical(s: seq<string>) {
    forall k :: 0 <= k < |s| ==> Canonical(s[k])
  }

  function Elements(s: seq<string>): set<string> { set k | 0 <= k < |s| :: s[k] }

  // ----- Sorting -----

  function Insert(x: string, s: seq<string>): seq<string> {
    if s == [] then [x]
    else if CompareIds(x, s[0]) <= 0 then [x] + s
    else [s[0]] + Insert(x, s[1..])
  }

  function Sort(s: seq<string>): seq<string> {
    if s == [] then [] else Insert(s[0], Sort(s[1..]))
  }

  predicate Ascending(s: seq<string>) {
    forall j, k :: 0 <= j < k < |s| ==> CompareIds(s[j], s[k]) <= 0
  }

  predicate StrictlyAscending(s: seq<string>) {
    forall j, k :: 0 <= j < k < |s| ==> CompareIds(s[j], s[k]) < 0
  }

  lemma {:induction false} InsertKeeps(x: string, s: seq<string>)
    ensures multiset(Insert(x, s)) == multiset{x} + multiset(s)
  {
    if s != [] && CompareIds(x, s[0]) > 0 {
      InsertKeeps(x, s[1..]);
      assert s == [s[0]] + s[1..];
    }
  }

  lemma {:induction false} SortKeeps(s: seq<string>)
    ensures multiset(Sort(s)) == multiset(s) && |Sort(s)| == |s|
  {
    if s != [] {
      SortKeeps(s[1..]);
      InsertKeeps(s[0], Sort(s[1..]));
      assert s == [s[0]] + s[1..];
    }
    assert |multiset(Sort(s))| == |multiset(s)|;
  }

  lemma SameElements(a: seq<string>, b: seq<string>)
    requires multiset(a) == multiset(b)
    ensures Elements(a) == Elements(b) && (AllCanonical(a) <==> AllCanonical(b))
  {
    forall x ensures x in a <==> x in b {
      assert x in multiset(a) <==> x in multiset(b);
    }
    forall k | 0 <= k < |a| ensures a[k] in b { assert a[k] in a; }
    forall k | 0 <= k < |b| ensures b[k] in a { assert b[k] in b; }
  }

  lemma {:induction false} InsertAscends(x: string, s: seq<string>)
    requires Ascending(s) && Canonical(x) && AllCanonical(s)
    ensures Ascending(Insert(x, s)) && AllCanonical(Insert(x, s))
  {
    hide CompareIds, Canonical;
    if s == [] {
    } else {
      CompareIsNumeric(x, s[0]);
      forall k | 0 <= k < |s| ensures CompareIds(x, s[0]) <= 0 ==> CompareIds(x, s[k]) <= 0 {
        Transitive(x, s[0], s[k]);
      }
      if CompareIds(x, s[0]) > 0 {
        InsertAscends(x, s[1..]);
        var t := Insert(x, s[1..]);
        InsertKeeps(x, s[1..]);
        forall k | 0 <= k < |t| ensures CompareIds(s[0], t[k]) <= 0 {
          assert t[k] in multiset(t);
          CompareIsNumeric(s[0], x);
        }
      }
    }
  }

  lemma Transitive(a: string, b: string, c: string)
    requires Canonical(a) && Canonical(b) && Canonical(c)
    requires CompareIds(b, c) <= 0 || b == c
    ensures CompareIds(a, b) <= 0 ==> CompareIds(a, c) <= 0
  {
    CompareIsNumeric(a, b);
    CompareIsNumeric(b, c);
    CompareIsNumeric(a, c);
  }

  lemma {:induction false} SortAscends(s: seq<string>)
    requires AllCanonical(s)
    ensures Ascending(Sort(s)) && AllCanonical(Sort(s))
  {
    hide Canonical, CompareIds;
    if s != [] {
      SortAscends(s[1..]);
      InsertAscends(s[0], Sort(s[1..]));
    }
  }

  lemma MultisetDistinct(s: seq<string>)
    ensures Distinct(s) <==> forall x :: x in multiset(s) ==> multiset(s)[x] == 1
  {
    if Distinct(s) {
      forall x | x in multiset(s) ensures multiset(s)[x] == 1 { OnceEach(s, x); }
    } else {
      var j, k :| 0 <= j < k < |s| && s[j] == s[k];
      assert s == s[..k] + [s[k]] + s[k + 1..];
      assert s[..k][j] == s[j];
      assert s[j] in multiset(s[..k]);
      assert multiset(s)[s[j]] >= 2;
    }
  }

  lemma {:induction false} OnceEach(s: seq<string>, x: string)
    requires Distinct(s) && x in s
    ensures multiset(s)[x] == 1
  {
    assert s == [s[0]] + s[1..];
    if s[0] == x {
      assert x !in s[1..];
    } else {
      OnceEach(s[1..], x);
    }
  }

  /** Sorting distinct canonical ids gives the one strictly ascending listing of the same ids. */
  lemma SortIsCanonical(s: seq<string>)
    requires AllCanonical(s) && Distinct(s)
    ensures StrictlyAscending(Sort(s)) && AllCanonical(Sort(s)) && Elements(Sort(s)) == Elements(s) && Distinct(Sort(s))
  {
    hide Canonical, CompareIds;
    SortAscends(s);
    SortKeeps(s);
    SameElements(Sort(s), s);
    MultisetDistinct(s);
    MultisetDistinct(Sort(s));
    forall j, k | 0 <= j < k < |Sort(s)| ensures CompareIds(Sort(s)[j], Sort(s)[k]) < 0 {
      CompareIsNumeric(Sort(s)[j], Sort(s)[k]);
    }
  }

  /** Two strictly ascending listings of the same ids are the same listing. */
  lemma {:induction false} ListingIsUnique(a: seq<string>, b: seq<string>)
    requires StrictlyAscending(a) && StrictlyAscending(b) && AllCanonical(a) && AllCanonical(b)
    requires Elements(a) == Elements(b)
    ensures a == b
  {
    hide Canonical, CompareIds;
    EmptyListing(a);
    EmptyListing(b);
    if a != [] {
      assert a[0] in Elements(b);
      assert b[0] in Elements(a);
      Least(a, b);
      Least(b, a);
      CompareIsNumeric(a[0], b[0]);
      CompareIsNumeric(b[0], a[0]);
      TailElements(a);
      TailElements(b);
      ListingIsUnique(a[1..], b[1..]);
      assert a == [a[0]] + a[1..] && b == [b[0]] + b[1..];
    }
  }

  lemma EmptyListing(a: seq<string>)
    ensures a == [] <==> Elements(a) == {}
  {
    if a != [] { assert a[0] in Elements(a); }
  }

  lemma Least(a: seq<string>, b: seq<string>)
    requires StrictlyAscending(a) && a != [] && b != [] && b[0] in Elements(a)
    ensures CompareIds(a[0], b[0]) <= 0
  {
    var k :| 0 <= k < |a| && a[k] == b[0];
  }

  lemma TailElements(a: seq<string>)
    requires StrictlyAscending(a) && AllCanonical(a) && a != []
    ensures Elements(a[1..]) == Elements(a) - {a[0]} && AllCanonical(a[1..]) && StrictlyAscending(a[1..])
  {
    hide Canonical, CompareIds;
    forall x ensures x in Elements(a[1..]) <==> x in Elements(a) && x != a[0] {
      if x in Elements(a[1..]) {
        var k :| 0 <= k < |a[1..]| && a[1..][k] == x;
        assert a[k + 1] == x;
        CompareIsNumeric(a[0], a[k + 1]);
      }
      if x in Elements(a) && x != a[0] {
        var k :| 0 <= k < |a| && a[k] == x;
        assert a[1..][k - 1] == x;
      }
    }
  }

  // ----- The canonical form -----

  /** A live inventory; the keys of the ownership record are listed in `owners`, in any order. */
  datatype LiveInventory = LiveInventory(
    account: Option<string>, projectIds: seq<string>, owners: seq<string>, pages: map<string, seq<string>>)

  /** The keys of a record are listed once each. */
  predicate IsRecord(inv: LiveInventory) {
    Distinct(inv.owners) && Elements(inv.owners) == inv.pages.Keys
  }

  datatype Form = Form(account: string, projectIds: seq<string>, pageOwnership: seq<(string, seq<string>)>)

  datatype Error =
    | AccountRequired | NotCanonical | ProjectsInvalid | PagesDuplicated | PageClaimedTwice | OwnershipMismatch

  predicate PagesCanonical(inv: LiveInventory) {
    forall p <- inv.pages :: AllCanonical(inv.pages[p])
  }

  predicate PagesDistinct(inv: LiveInventory) {
    forall p <- inv.pages :: Distinct(inv.pages[p])
  }

  predicate OneOwnerEach(inv: LiveInventory) {
    forall p <- inv.pages, q <- inv.pages :: p != q ==> Elements(inv.pages[p]) !! Elements(inv.pages[q])
  }

  function Listing(ids: seq<string>, pages: map<string, seq<string>>): seq<(string, seq<string>)>
    requires forall k :: 0 <= k < |ids| ==> ids[k] in pages
  {
    seq(|ids|, k requires 0 <= k < |ids| => (ids[k], Sort(pages[ids[k]])))
  }

  /** An inventory that is accepted, whatever the order of its lists. */
  predicate Acceptable(inv: LiveInventory) {
    && inv.account.Some?
    && AllCanonical(inv.projectIds) && inv.projectIds != [] && Distinct(inv.projectIds)
    && AllCanonical(inv.owners) && PagesCanonical(inv) && PagesDistinct(inv) && OneOwnerEach(inv)
    && Elements(inv.projectIds) == inv.pages.Keys
  }

  lemma SortedOwners(inv: LiveInventory)
    requires IsRecord(inv)
    ensures forall k :: 0 <= k < |Sort(inv.owners)| ==> Sort(inv.owners)[k] in inv.pages
  {
    SortKeeps(inv.owners);
    SameElements(Sort(inv.owners), inv.owners);
    forall k | 0 <= k < |Sort(inv.owners)| ensures Sort(inv.owners)[k] in inv.pages {
      assert Sort(inv.owners)[k] in Elements(Sort(inv.owners));
    }
  }

  function CanonicalForm(inv: LiveInventory): Result<Form, Error>
    requires IsRecord(inv)
  {
    if inv.account.None? then Err(AccountRequired)
    else if !AllCanonical(inv.projectIds) then Err(NotCanonical)
    else if inv.projectIds == [] || !Distinct(inv.projectIds) then Err(ProjectsInvalid)
    else if !AllCanonical(inv.owners) || !PagesCanonical(inv) then Err(NotCanonical)
    else if !PagesDistinct(inv) then Err(PagesDuplicated)
    else if !OneOwnerEach(inv) then Err(PageClaimedTwice)
    else if Sort(inv.owners) != Sort(inv.projectIds) then Err(OwnershipMismatch)
    else
      SortedOwners(inv);
      Ok(Form(inv.account.value, Sort(inv.projectIds), Listing(Sort(inv.owners), inv.pages)))
  }

  /** The form exists exactly for acceptable inventories. */
  lemma FormExistsExactly(inv: LiveInventory)
    requires IsRecord(inv)
    ensures CanonicalForm(inv).Ok? <==> Acceptable(inv)
  {
    hide Canonical, CompareIds, Sort;
    if AllCanonical(inv.projectIds) && Distinct(inv.projectIds) && AllCanonical(inv.owners) {
      SortIsCanonical(inv.projectIds);
      SortIsCanonical(inv.owners);
      if Elements(inv.projectIds) == Elements(inv.owners) {
        ListingIsUnique(Sort(inv.projectIds), Sort(inv.owners));
      }
    }
  }

  /** Same account, same projects, and the same pages in each. */
  predicate SameInventory(a: LiveInventory, b: LiveInventory) {
    && a.account == b.account
    && Elements(a.projectIds) == Elements(b.projectIds)
    && a.pages.Keys == b.pages.Keys
    && forall p <- a.pages :: Elements(a.pages[p]) == Elements(b.pages[p])
  }

  lemma SortDecides(a: seq<string>, b: seq<string>)
    requires AllCanonical(a) && Distinct(a) && AllCanonical(b) && Distinct(b)
    ensures Sort(a) == Sort(b) <==> Elements(a) == Elements(b)
  {
    hide Canonical, CompareIds, Sort;
    SortIsCanonical(a);
    SortIsCanonical(b);
    if Elements(a) == Elements(b) {
      ListingIsUnique(Sort(a), Sort(b));
    }
  }

  lemma ListingDecides(ids: seq<string>, a: map<string, seq<string>>, b: map<string, seq<string>>)
    requires forall k :: 0 <= k < |ids| ==> ids[k] in a && ids[k] in b
    ensures Listing(ids, a) == Listing(ids, b) <==> forall k :: 0 <= k < |ids| ==> Sort(a[ids[k]]) == Sort(b[ids[k]])
  {
    hide Sort;
    if Listing(ids, a) == Listing(ids, b) {
      forall k | 0 <= k < |ids| ensures Sort(a[ids[k]]) == Sort(b[ids[k]]) {
        assert Listing(ids, a)[k] == Listing(ids, b)[k];
      }
    }
  }

  /** Two accepted inventories have the same canonical form exactly when they say the same, in whatever order. */
  lemma FormsAgreeExactly(a: LiveInventory, b: LiveInventory)
    requires IsRecord(a) && IsRecord(b) && CanonicalForm(a).Ok? && CanonicalForm(b).Ok?
    ensures CanonicalForm(a) == CanonicalForm(b) <==> SameInventory(a, b)
  {
    hide Canonical, CompareIds, Sort, Listing, Distinct, AllCanonical;
    FormExistsExactly(a);
    FormExistsExactly(b);
    SortDecides(a.projectIds, b.projectIds);
    if a.account == b.account && Elements(a.projectIds) == Elements(b.projectIds) {
      SortedOwners(a);
      SortedOwners(b);
      var ids := Sort(a.owners);
      assert ids == Sort(b.owners);
      ListingDecides(ids, a.pages, b.pages);
      OwnersListed(a);
      forall k | 0 <= k < |ids| ensures Sort(a.pages[ids[k]]) == Sort(b.pages[ids[k]]) <==> Elements(a.pages[ids[k]]) == Elements(b.pages[ids[k]]) {
        SortDecides(a.pages[ids[k]], b.pages[ids[k]]);
      }
    }
  }

  lemma OwnersListed(inv: LiveInventory)
    requires IsRecord(inv)
    ensures forall p :: p in inv.pages ==> exists k :: 0 <= k < |Sort(inv.owners)| && Sort(inv.owners)[k] == p
  {
    SortKeeps(inv.owners);
    SameElements(Sort(inv.owners), inv.owners);
    forall p | p in inv.pages ensures exists k :: 0 <= k < |Sort(inv.owners)| && Sort(inv.owners)[k] == p {
      assert p in Elements(Sort(inv.owners));
    }
  }

  /** In an accepted inventory every page has exactly one owner. */
  lemma PageOwnershipIsAFunction(inv: LiveInventory, page: string, p: string, q: string)
    requires IsRecord(inv) && CanonicalForm(inv).Ok?
    requires p in inv.pages && q in inv.pages && page in inv.pages[p] && page in inv.pages[q]
    ensures p == q
  {
    hide Canonical, CompareIds, Sort;
    assert page in Elements(inv.pages[p]) && page in Elements(inv.pages[q]);
  }
}
