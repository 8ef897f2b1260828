/** The loop that groups journal entries into histories and keeps the latest of each. */
module LearningJournalScan {
  import opened Prelude
  import opened LearningJournal

  datatype HistoryName = HistoryName(target: nat, key: nat)

  function HistoryOf(e: Entry): HistoryName { HistoryName(e.id.target, e.id.key) }

  predicate Distinct(values: seq<Entry>) {
    forall a, b :: 0 <= a < b < |values| ==> values[a] != values[b]
  }

  function Members(values: seq<Entry>): set<Entry> { set k | 0 <= k < |values| :: values[k] }

  /** The entries of one history, in listing order. */
  function History(records: seq<Entry>, h: HistoryName): seq<Entry> {
    if records == [] then []
    else
      var last := records[|records| - 1];
      History(records[..|records| - 1], h) + (if HistoryOf(last) == h then [last] else [])
  }

  lemma {:induction false} HistoryMembers(records: seq<Entry>, h: HistoryName)
    ensures forall e :: e in History(records, h) <==> e in records && HistoryOf(e) == h
    ensures Distinct(records) ==> Distinct(History(records, h))
    decreases |records|
  {
    if records != [] {
      var front := records[..|records| - 1];
      var last := records[|records| - 1];
      HistoryMembers(front, h);
      assert records == front + [last];
      assert Distinct(records) ==> last !in front;
    }
  }

  // ----- One history -----

  /** One claim, then at most one final entry of the same identity. */
  predicate HistoryFine(values: seq<Entry>) {
    && (exists c :: c in values && c.sequence == 0)
    && (forall a, b :: a in values && b in values ==> a.id == b.id && (a.sequence == b.sequence ==> a == b))
  }

  predicate Numbered(values: seq<Entry>) {
    forall e :: e in values ==> e.sequence <= 1
  }

  function BySequence(values: seq<Entry>): seq<Entry>
    requires |values| <= 2
  {
    if |values| == 2 && values[0].sequence > values[1].sequence then [values[1], values[0]] else values
  }

  /** The verdict on one history is the program's: its length, its first sequence number, its identity and its second number. */
  method LatestOf(values: seq<Entry>) returns (latest: Option<Entry>)
    requires Distinct(values) && Numbered(values)
    ensures latest.Some? <==> HistoryFine(values)
    ensures latest.Some? ==>
              latest.value in values && forall e :: e in values ==> e.sequence <= latest.value.sequence
  {
    if |values| < 1 { return None; }
    if |values| > 2 {
      TooMany(values);
      return None;
    }
    var sorted := BySequence(values);
    assert forall e :: e in sorted <==> e in values;
    if sorted[0].sequence != 0 { return None; }
    assert sorted[0] in values;
    if |sorted| == 2 {
      assert sorted[1] in values && sorted[0] != sorted[1];
      if sorted[1].id != sorted[0].id || sorted[1].sequence != 1 { return None; }
    }
    assert forall e :: e in values ==> e == sorted[0] || (|sorted| == 2 && e == sorted[1]);
    return Some(sorted[|sorted| - 1]);
  }

  lemma TooMany(values: seq<Entry>)
    requires Distinct(values) && Numbered(values) && |values| > 2
    ensures !HistoryFine(values)
  {
    assert values[0] in values && values[1] in values && values[2] in values;
    assert values[0] != values[1] && values[1] != values[2] && values[0] != values[2];
  }

  // ----- All histories -----

  lemma MemberOf(records: seq<Entry>)
    ensures forall e :: e in Members(records) <==> e in records
  {
  }

  lemma FineTogether(records: seq<Entry>, a: Entry, b: Entry)
    requires a in records && b in records && SameHistory(a, b) && HistoryFine(History(records, HistoryOf(a)))
    ensures a.id == b.id && (a.sequence == b.sequence ==> a == b)
  {
    HistoryMembers(records, HistoryOf(a));
  }

  lemma FineClaimed(records: seq<Entry>, e: Entry)
    requires e in records && HistoryFine(History(records, HistoryOf(e)))
    ensures ClaimPresent(Members(records), e)
  {
    HistoryMembers(records, HistoryOf(e));
    MemberOf(records);
    var c :| c in History(records, HistoryOf(e)) && c.sequence == 0;
    assert c in Members(records) && SameHistory(c, e);
  }

  lemma SoundByHistory(records: seq<Entry>)
    requires Numbered(records)
    ensures HistoriesSound(Members(records)) <==>
              forall e :: e in records ==> HistoryFine(History(records, HistoryOf(e)))
  {
    hide HistoryFine, History, ClaimPresent, Members;
    MemberOf(records);
    if forall e :: e in records ==> HistoryFine(History(records, HistoryOf(e))) {
      forall a, b | a in records && b in records && SameHistory(a, b)
        ensures a.id == b.id && (a.sequence == b.sequence ==> a == b)
      {
        FineTogether(records, a, b);
      }
      forall e | e in records ensures ClaimPresent(Members(records), e) { FineClaimed(records, e); }
    }
    if HistoriesSound(Members(records)) {
      forall e | e in records ensures HistoryFine(History(records, HistoryOf(e))) {
        SoundHistory(records, e);
      }
    }
  }

  lemma SoundHistory(records: seq<Entry>, e: Entry)
    requires HistoriesSound(Members(records)) && e in records
    requires forall x :: x in Members(records) <==> x in records
    ensures HistoryFine(History(records, HistoryOf(e)))
  {
    var h := HistoryOf(e);
    HistoryMembers(records, h);
    assert ClaimPresent(Members(records), e);
    var c :| c in Members(records) && SameHistory(c, e) && c.sequence == 0;
    assert c in History(records, h);
    forall a, b | a in History(records, h) && b in History(records, h)
      ensures a.id == b.id && (a.sequence == b.sequence ==> a == b)
    {
      assert a in Members(records) && b in Members(records) && SameHistory(a, b);
    }
  }

  ghost predicate Grouped(grouped: map<HistoryName, seq<Entry>>, records: seq<Entry>) {
    && (forall h :: h in grouped ==> grouped[h] == History(records, h))
    && (forall e :: e in records ==> HistoryOf(e) in grouped)
    && (forall h :: h in grouped ==> grouped[h] != [])
  }

  lemma GroupOne(grouped: map<HistoryName, seq<Entry>>, records: seq<Entry>, i: nat)
    requires i < |records| && Grouped(grouped, records[..i])
    ensures var h := HistoryOf(records[i]);
            var before := if h in grouped then grouped[h] else [];
            Grouped(grouped[h := before + [records[i]]], records[..i + 1])
  {
    var h := HistoryOf(records[i]);
    assert records[..i + 1][..i] == records[..i];
    HistoryMembers(records[..i], h);
    if h !in grouped {
      forall e | e in records[..i] ensures HistoryOf(e) != h {}
      EmptyHistory(records[..i], h);
    }
    forall e | e in records[..i + 1] ensures e == records[i] || e in records[..i] {
      var k :| 0 <= k < i + 1 && records[..i + 1][k] == e;
      if k < i { assert records[..i][k] == e; }
    }
  }

  lemma {:induction false} EmptyHistory(records: seq<Entry>, h: HistoryName)
    requires forall e :: e in records ==> HistoryOf(e) != h
    ensures History(records, h) == []
    decreases |records|
  {
    if records != [] {
      var front := records[..|records| - 1];
      assert forall e :: e in front ==> e in records;
      EmptyHistory(front, h);
      assert records[|records| - 1] in records;
    }
  }

  /** The scan succeeds exactly on sound histories, and returns the latest entry of each. */
  method LatestEntries(records: seq<Entry>) returns (r: Option<set<Entry>>)
    requires Distinct(records) && Numbered(records)
    ensures r.Some? <==> HistoriesSound(Members(records))
    ensures r.Some? ==> r.value == Latest(Members(records))
  {
    hide HistoriesSound, Latest, HistoryFine, History;
    var grouped: map<HistoryName, seq<Entry>> := map[];
    var i := 0;
    while i < |records|
      invariant 0 <= i <= |records|
      invariant Grouped(grouped, records[..i])
    {
      GroupOne(grouped, records, i);
      var h := HistoryOf(records[i]);
      var values := if h in grouped then grouped[h] else [];
      grouped := grouped[h := values + [records[i]]];
      i := i + 1;
    }
    assert records[..i] == records;
    SoundByHistory(records);
    var latest: set<Entry> := {};
    var seen: set<HistoryName> := {};
    var todo := grouped.Keys;
    while todo != {}
      invariant seen + todo == grouped.Keys && seen !! todo
      invariant forall h :: h in seen ==> HistoryFine(grouped[h])
      invariant latest == LatestIn(grouped, seen)
      decreases |todo|
    {
      var h :| h in todo;
      HistoryMembers(records, h);
      var last := LatestOf(grouped[h]);
      if last.None? {
        Unsound(grouped, records, h);
        return None;
      }
      LatestGrows(grouped, seen, h, last.value);
      latest := latest + {last.value};
      seen, todo := seen + {h}, todo - {h};
    }
    assert seen == grouped.Keys;
    AllSound(grouped, records);
    LatestIsLatest(grouped, records);
    return Some(latest);
  }

  /** The greatest entries of the histories in `names`. */
  ghost function LatestIn(grouped: map<HistoryName, seq<Entry>>, names: set<HistoryName>): set<Entry>
    requires names <= grouped.Keys
  {
    set h, e | h in names && e in grouped[h] && Greatest(grouped[h], e) :: e
  }

  predicate Greatest(values: seq<Entry>, e: Entry) {
    forall x :: x in values ==> x.sequence <= e.sequence
  }

  lemma LatestGrows(grouped: map<HistoryName, seq<Entry>>, seen: set<HistoryName>, h: HistoryName, last: Entry)
    requires seen <= grouped.Keys && h in grouped && h !in seen && HistoryFine(grouped[h])
    requires last in grouped[h] && Greatest(grouped[h], last)
    ensures LatestIn(grouped, seen + {h}) == LatestIn(grouped, seen) + {last}
  {
    forall e | e in grouped[h] && Greatest(grouped[h], e) ensures e == last {
      assert e.sequence <= last.sequence && last.sequence <= e.sequence;
    }
  }

  lemma Unsound(grouped: map<HistoryName, seq<Entry>>, records: seq<Entry>, h: HistoryName)
    requires Grouped(grouped, records) && h in grouped && !HistoryFine(grouped[h])
    ensures !forall e :: e in records ==> HistoryFine(History(records, HistoryOf(e)))
  {
    HistoryMembers(records, h);
    var e := grouped[h][0];
    assert e in History(records, h);
    assert HistoryOf(e) == h && e in records;
  }

  lemma AllSound(grouped: map<HistoryName, seq<Entry>>, records: seq<Entry>)
    requires Grouped(grouped, records) && forall h :: h in grouped ==> HistoryFine(grouped[h])
    ensures forall e :: e in records ==> HistoryFine(History(records, HistoryOf(e)))
  {
  }

  lemma LatestIsLatest(grouped: map<HistoryName, seq<Entry>>, records: seq<Entry>)
    requires Grouped(grouped, records)
    ensures LatestIn(grouped, grouped.Keys) == Latest(Members(records))
  {
    forall h { HistoryMembers(records, h); }
    assert forall e :: e in Members(records) <==> e in records;
    forall e ensures e in LatestIn(grouped, grouped.Keys) <==> e in Latest(Members(records)) {
      if e in records {
        assert e in grouped[HistoryOf(e)];
        assert Greatest(grouped[HistoryOf(e)], e) <==> !Superseded(Members(records), e) by { GreatestIsLatest(records, e); }
      }
    }
  }

  lemma GreatestIsLatest(records: seq<Entry>, e: Entry)
    requires e in records && forall x :: x in Members(records) <==> x in records
    ensures Greatest(History(records, HistoryOf(e)), e) <==> !Superseded(Members(records), e)
  {
    HistoryMembers(records, HistoryOf(e));
    forall x ensures x in History(records, HistoryOf(e)) <==> x in Members(records) && SameHistory(x, e) {}
  }
}
