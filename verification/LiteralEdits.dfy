/**
 Bulk literal replacement in T123 code: find the greedy matches of every rule in the
 original text, order the spans, refuse overlaps, and splice all replacements at once.
 */
module LiteralEdits {
  import opened Prelude
  import opened Text

  const MAX_CODE_BYTES := 5_000_000
  const MAX_LITERAL_RULES := 128
  const MAX_LITERAL_MATCHES := 2_048

  datatype EditError =
    | InvalidInput | LimitExceeded | MatchCountMismatch | OverlappingReplacements
    | NoChange | StructuralDamage

  datatype Rule = Rule(needle: string, replacement: string, expectedMatches: int)

  datatype Span = Span(start: nat, end: nat, replacement: string)

  /** UTF-8 size of one character. */
  function CharBytes(c: char): nat {
    if c as int < 0x80 then 1 else if c as int < 0x800 then 2 else if c as int < 0x10000 then 3 else 4
  }

  function Bytes(text: string): nat {
    if text == [] then 0 else CharBytes(text[0]) + Bytes(text[1..])
  }

  predicate Bounded(text: string) { Bytes(text) <= MAX_CODE_BYTES }

  // ----- Greedy matches -----

  /** The matches a left-to-right search meets from `from` on, each search starting after the last match. */
  function Matches(text: string, needle: string, from: nat): (offsets: seq<nat>)
    requires needle != []
    decreases |text| - from
  {
    var next := IndexOf(text, needle, from);
    if next.None? then [] else
      assert MatchAt(text, needle, next.value);
      [next.value] + Matches(text, needle, next.value + |needle|)
  }

  lemma MatchesUnfold(text: string, needle: string, from: nat)
    requires needle != [] && IndexOf(text, needle, from).Some?
    ensures var next := IndexOf(text, needle, from).value;
            Matches(text, needle, from) == [next] + Matches(text, needle, next + |needle|)
  {}

  lemma MatchesEnd(text: string, needle: string, from: nat)
    requires needle != [] && IndexOf(text, needle, from).None?
    ensures Matches(text, needle, from) == []
  {}

  predicate AreOrdered(text: string, needle: string, from: nat, o: seq<nat>) {
    && (forall k :: 0 <= k < |o| ==> from <= o[k] && MatchAt(text, needle, o[k]))
    && (forall j, k :: 0 <= j < k < |o| ==> o[j] + |needle| <= o[k])
  }

  /** The searched offsets are matches, in order and disjoint. */
  lemma {:induction false} MatchesAreOrdered(text: string, needle: string, from: nat)
    requires needle != []
    ensures AreOrdered(text, needle, from, Matches(text, needle, from))
    decreases |text| - from
  {
    var next := IndexOf(text, needle, from);
    if next.Some? {
      assert next.value + |needle| <= |text|;
      MatchesAreOrdered(text, needle, next.value + |needle|);
      MatchesUnfold(text, needle, from);
      hide MatchAt, Matches, IndexOf;
    }
  }

  /** No match is skipped: each one starts inside an offset that was taken. */
  lemma {:induction false} MatchesAreComplete(text: string, needle: string, from: nat, p: nat) returns (o: nat)
    requires needle != [] && from <= p && MatchAt(text, needle, p)
    ensures o in Matches(text, needle, from) && o <= p < o + |needle|
    decreases |text| - from
  {
    var next := IndexOf(text, needle, from);
    assert next.Some? && next.value <= p;
    assert next.value + |needle| <= |text|;
    MatchesUnfold(text, needle, from);
    if next.value + |needle| <= p {
      o := MatchesAreComplete(text, needle, next.value + |needle|, p);
    } else {
      o := next.value;
    }
  }

  method ExactMatches(text: string, needle: string) returns (r: Result<seq<nat>, EditError>)
    ensures needle == [] ==> r == Err(InvalidInput)
    ensures needle != [] && |Matches(text, needle, 0)| > MAX_LITERAL_MATCHES ==> r == Err(LimitExceeded)
    ensures needle != [] && |Matches(text, needle, 0)| <= MAX_LITERAL_MATCHES ==>
              r == Ok(Matches(text, needle, 0))
  {
    hide MatchAt, Matches;
    if |needle| == 0 { return Err(InvalidInput); }
    var offsets: seq<nat> := [];
    var cursor := 0;
    while cursor <= |text| - |needle|
      invariant offsets + Matches(text, needle, cursor) == Matches(text, needle, 0)
      invariant |offsets| <= MAX_LITERAL_MATCHES
      decreases |text| - cursor
    {
      var offset := IndexOf(text, needle, cursor);
      if offset.None? {
        MatchesEnd(text, needle, cursor);
        assert offsets + [] == offsets;
        return Ok(offsets);
      }
      MatchesUnfold(text, needle, cursor);
      ghost var rest := Matches(text, needle, offset.value + |needle|);
      assert offsets + ([offset.value] + rest) == (offsets + [offset.value]) + rest;
      offsets := offsets + [offset.value];
      if |offsets| > MAX_LITERAL_MATCHES { return Err(LimitExceeded); }
      cursor := offset.value + |needle|;
    }
    NoMatchPastEnd(text, needle, cursor);
    assert offsets + [] == offsets;
    r := Ok(offsets);
  }

  lemma NoMatchPastEnd(text: string, needle: string, from: nat)
    requires needle != [] && from > |text| - |needle|
    ensures Matches(text, needle, from) == []
  {}

  // ----- Spans of several rules -----

  function SpanAt(rule: Rule, offset: nat): Span {
    Span(offset, offset + |rule.needle|, rule.replacement)
  }

  predicate RuleFine(text: string, rule: Rule) {
    && Bounded(rule.needle) && Bounded(rule.replacement)
    && 1 <= rule.expectedMatches <= MAX_LITERAL_MATCHES
    && rule.needle != []
    && |Matches(text, rule.needle, 0)| == rule.expectedMatches
  }

  predicate RulesFine(text: string, rules: seq<Rule>) {
    && 1 <= |rules| <= MAX_LITERAL_RULES
    && (forall rule <- rules :: RuleFine(text, rule))
    && NeedlesDistinct(rules)
  }

  /** What is wrong with one rule, given whether an earlier one has its needle. */
  function RuleFault(text: string, rule: Rule, repeated: bool): Option<EditError> {
    if !Bounded(rule.needle) || !Bounded(rule.replacement) then Some(LimitExceeded)
    else if !(1 <= rule.expectedMatches <= MAX_LITERAL_MATCHES) || repeated || rule.needle == [] then Some(InvalidInput)
    else if |Matches(text, rule.needle, 0)| > MAX_LITERAL_MATCHES then Some(LimitExceeded)
    else if |Matches(text, rule.needle, 0)| != rule.expectedMatches then Some(MatchCountMismatch)
    else None
  }

  predicate Repeated(rules: seq<Rule>, i: nat)
    requires i < |rules|
  {
    exists j :: 0 <= j < i && rules[j].needle == rules[i].needle
  }

  function FaultAt(text: string, rules: seq<Rule>, i: nat): Option<EditError>
    requires i < |rules|
  {
    RuleFault(text, rules[i], Repeated(rules, i))
  }

  /** The first rule with a fault decides the error. */
  predicate FirstFault(text: string, rules: seq<Rule>, i: nat) {
    i < |rules| && FaultAt(text, rules, i).Some? && forall j :: 0 <= j < i ==> FaultAt(text, rules, j).None?
  }

  lemma NoFault(text: string, rules: seq<Rule>)
    requires forall k :: 0 <= k < |rules| ==> FaultAt(text, rules, k).None?
    ensures forall j: nat :: !FirstFault(text, rules, j)
  {
    hide FaultAt;
  }

  lemma FaultDecides(text: string, rules: seq<Rule>, i: nat)
    requires i < |rules| && forall k :: 0 <= k < i ==> FaultAt(text, rules, k).None?
    ensures FaultAt(text, rules, i).Some? ==> forall j: nat :: FirstFault(text, rules, j) ==> j == i
  {
    hide FaultAt;
  }

  predicate NeedlesDistinct(rules: seq<Rule>) {
    forall a, b :: 0 <= a < b < |rules| ==> rules[a].needle != rules[b].needle
  }

  /** `s` replaces one searched match of one of the rules. */
  predicate IsRuleSpan(text: string, rule: Rule, s: Span) {
    rule.needle != [] && s.start in Matches(text, rule.needle, 0) && s == SpanAt(rule, s.start)
  }

  ghost predicate IsSpan(text: string, rules: seq<Rule>, s: Span) {
    exists rule <- rules :: IsRuleSpan(text, rule, s)
  }

  predicate Apart(a: Span, b: Span) { a.end <= b.start || b.end <= a.start }

  /** No two replacements touch the same original text. */
  ghost predicate PairwiseApart(text: string, rules: seq<Rule>) {
    forall a, b :: IsSpan(text, rules, a) && IsSpan(text, rules, b) && a != b ==> Apart(a, b)
  }

  /** The spans of the rules, each once. */
  ghost predicate ListsSpans(text: string, rules: seq<Rule>, spans: seq<Span>) {
    forall s :: s in spans <==> IsSpan(text, rules, s)
  }

  predicate InOrder(spans: seq<Span>) {
    && (forall s <- spans :: s.start < s.end)
    && (forall j, k :: 0 <= j < k < |spans| ==> spans[j].end <= spans[k].start)
  }

  predicate Precedes(a: Span, b: Span) {
    a.start < b.start || (a.start == b.start && a.end <= b.end)
  }

  predicate Sorted(spans: seq<Span>) {
    forall j, k :: 0 <= j < k < |spans| ==> Precedes(spans[j], spans[k])
  }

  function Insert(s: Span, spans: seq<Span>): (r: seq<Span>)
    requires Sorted(spans)
    ensures Sorted(r) && |r| == |spans| + 1
    ensures forall x :: x in r <==> x == s || x in spans
    ensures Distinct(spans) && s !in spans ==> Distinct(r)
  {
    if spans == [] then [s]
    else if Precedes(s, spans[0]) then [s] + spans
    else
      var rest := Insert(s, spans[1..]);
      assert forall x <- rest :: Precedes(spans[0], x);
      assert Distinct(spans) ==> spans[0] !in spans[1..];
      [spans[0]] + rest
  }

  predicate Distinct(spans: seq<Span>) {
    forall j, k :: 0 <= j < k < |spans| ==> spans[j] != spans[k]
  }

  function Sort(spans: seq<Span>): (r: seq<Span>)
    ensures Sorted(r) && |r| == |spans|
    ensures forall x :: x in r <==> x in spans
    ensures Distinct(spans) ==> Distinct(r)
  {
    if spans == [] then [] else Insert(spans[0], Sort(spans[1..]))
  }

  method LiteralSpans(text: string, rules: seq<Rule>) returns (r: Result<seq<Span>, EditError>)
    ensures r.Ok? <==> RulesFine(text, rules) && PairwiseApart(text, rules)
    ensures r.Ok? ==> InOrder(r.value) && ListsSpans(text, rules, r.value)
    ensures r == Err(OverlappingReplacements) <==> RulesFine(text, rules) && !PairwiseApart(text, rules)
    ensures !(1 <= |rules| <= MAX_LITERAL_RULES) ==> r == Err(LimitExceeded)
    ensures 1 <= |rules| <= MAX_LITERAL_RULES ==>
              forall i: nat :: FirstFault(text, rules, i) ==> r == Err(FaultAt(text, rules, i).value)
  {
    hide Matches, Bounded, FirstFault;
    if |rules| == 0 || |rules| > MAX_LITERAL_RULES { return Err(LimitExceeded); }
    var seen: set<string> := {};
    var spans: seq<Span> := [];
    for i := 0 to |rules|
      invariant forall k :: 0 <= k < i ==> RuleFine(text, rules[k])
      invariant forall k :: 0 <= k < i ==> FaultAt(text, rules, k).None?
      invariant NeedlesDistinct(rules[..i])
      invariant forall n :: n in seen <==> exists k :: 0 <= k < i && rules[k].needle == n
      invariant ListsSpans(text, rules[..i], spans) && Distinct(spans)
    {
      var rule := rules[i];
      assert rule in rules;
      FaultDecides(text, rules, i);
      if !Bounded(rule.needle) || !Bounded(rule.replacement) { return Err(LimitExceeded); }
      if rule.expectedMatches < 1 || rule.expectedMatches > MAX_LITERAL_MATCHES { return Err(InvalidInput); }
      if rule.needle in seen { return Err(InvalidInput); }
      seen := seen + {rule.needle};
      var found := ExactMatches(text, rule.needle);
      if found.Err? { return Err(found.error); }
      var offsets := found.value;
      if |offsets| != rule.expectedMatches { return Err(MatchCountMismatch); }
      var own: seq<Span> := [];
      for j := 0 to |offsets|
        invariant |own| == j && forall k :: 0 <= k < j ==> own[k] == SpanAt(rule, offsets[k])
      {
        own := own + [SpanAt(rule, offsets[j])];
      }
      AddRuleSpans(text, rules[..i], rule, spans, own);
      assert rules[..i] + [rule] == rules[..i + 1];
      spans := spans + own;
    }
    assert rules[..|rules|] == rules;
    NoFault(text, rules);
    spans := Sort(spans);
    var index := 1;
    while index < |spans|
      invariant forall k :: 0 < k < index && k < |spans| ==> spans[k - 1].end <= spans[k].start
    {
      if spans[index].start < spans[index - 1].end {
        OverlapFound(text, rules, spans, index);
        return Err(OverlappingReplacements);
      }
      index := index + 1;
    }
    NeighboursSuffice(text, rules, spans);
    r := Ok(spans);
  }

  /** A later rule has another needle, so its spans are new. */
  lemma AddRuleSpans(text: string, before: seq<Rule>, rule: Rule, spans: seq<Span>, own: seq<Span>)
    requires rule.needle != []
    requires forall k :: 0 <= k < |before| ==> before[k].needle != rule.needle
    requires ListsSpans(text, before, spans) && Distinct(spans)
    requires |own| == |Matches(text, rule.needle, 0)|
    requires forall k :: 0 <= k < |own| ==> own[k] == SpanAt(rule, Matches(text, rule.needle, 0)[k])
    ensures ListsSpans(text, before + [rule], spans + own) && Distinct(spans + own)
  {
    MatchesAreOrdered(text, rule.needle, 0);
    hide Matches;
    var o := Matches(text, rule.needle, 0);
    assert forall s :: s in own <==> IsRuleSpan(text, rule, s) by {
      forall s | IsRuleSpan(text, rule, s) ensures s in own {
        var k :| 0 <= k < |o| && o[k] == s.start;
        assert own[k] == s;
      }
    }
    assert Distinct(own) by {
      forall j, k | 0 <= j < k < |own| ensures own[j] != own[k] {
        assert o[j] + |rule.needle| <= o[k];
        assert own[j].start < own[k].start;
      }
    }
    forall s | s in spans ensures s !in own {
      if s in own {
        var other :| other in before && IsRuleSpan(text, other, s);
        SpanShowsNeedle(text, other, s);
        SpanShowsNeedle(text, rule, s);
      }
    }
    DistinctAppend(spans, own);
    forall s ensures s in spans + own <==> IsSpan(text, before + [rule], s) {
      if IsSpan(text, before + [rule], s) {
        var q :| q in before + [rule] && IsRuleSpan(text, q, s);
        assert q in before || q == rule;
      }
    }
  }

  lemma DistinctAppend(a: seq<Span>, b: seq<Span>)
    requires Distinct(a) && Distinct(b) && forall s <- a :: s !in b
    ensures Distinct(a + b)
  {
    forall j, k | 0 <= j < k < |a + b| ensures (a + b)[j] != (a + b)[k] {
      if j < |a| { assert a[j] in a; }
    }
  }

  lemma SpanShowsNeedle(text: string, rule: Rule, s: Span)
    requires IsRuleSpan(text, rule, s)
    ensures s.start < s.end <= |text| && text[s.start..s.end] == rule.needle
  {
    var o := Matches(text, rule.needle, 0);
    MatchesAreOrdered(text, rule.needle, 0);
    var k :| 0 <= k < |o| && o[k] == s.start;
    assert MatchAt(text, rule.needle, s.start);
  }

  lemma OverlapFound(text: string, rules: seq<Rule>, spans: seq<Span>, k: nat)
    requires ListsSpans(text, rules, spans) && Sorted(spans) && Distinct(spans)
    requires 0 < k < |spans| && spans[k].start < spans[k - 1].end
    ensures !PairwiseApart(text, rules)
  {
    var a, b := spans[k - 1], spans[k];
    assert a in spans && b in spans && IsSpan(text, rules, a) && IsSpan(text, rules, b);
    var ra :| ra in rules && IsRuleSpan(text, ra, a);
    var rb :| rb in rules && IsRuleSpan(text, rb, b);
    SpanShowsNeedle(text, ra, a);
    SpanShowsNeedle(text, rb, b);
    assert !Apart(a, b);
  }

  /** Comparing neighbours of the sorted list is enough to keep every pair apart. */
  lemma NeighboursSuffice(text: string, rules: seq<Rule>, spans: seq<Span>)
    requires ListsSpans(text, rules, spans) && Sorted(spans)
    requires forall k :: 0 < k < |spans| ==> spans[k - 1].end <= spans[k].start
    ensures InOrder(spans) && PairwiseApart(text, rules)
  {
    forall s <- spans ensures s.start < s.end {
      var rule :| rule in rules && IsRuleSpan(text, rule, s);
      SpanShowsNeedle(text, rule, s);
    }
    hide IsSpan;
    forall j, k | 0 <= j < k < |spans| ensures spans[j].end <= spans[k].start {
      assert spans[j] in spans && spans[j + 1] in spans;
      assert spans[j].end <= spans[j + 1].start;
      assert j + 1 < k ==> Precedes(spans[j + 1], spans[k]);
    }
    forall a, b | IsSpan(text, rules, a) && IsSpan(text, rules, b) && a != b ensures Apart(a, b) {
      var j :| 0 <= j < |spans| && spans[j] == a;
      var k :| 0 <= k < |spans| && spans[k] == b;
    }
  }

  /** An ordered list of spans is determined by its members. */
  lemma {:induction false} InOrderUnique(a: seq<Span>, b: seq<Span>)
    requires InOrder(a) && InOrder(b) && forall s :: s in a <==> s in b
    ensures a == b
  {
    EmptyTogether(a, b);
    if a != [] {
      FirstIsSame(a, b);
      forall s ensures s in a[1..] <==> s in b[1..] {
        TailMembers(a, s);
        TailMembers(b, s);
      }
      InOrderUnique(a[1..], b[1..]);
      assert a == [a[0]] + a[1..] && b == [b[0]] + b[1..];
    }
  }

  lemma EmptyTogether(a: seq<Span>, b: seq<Span>)
    requires forall s :: s in a <==> s in b
    ensures a == [] <==> b == []
  {
    if a != [] { assert a[0] in b; }
    if b != [] { assert b[0] in a; }
  }

  lemma FirstIsSame(a: seq<Span>, b: seq<Span>)
    requires InOrder(a) && InOrder(b) && a != [] && b != []
    requires forall s :: s in a <==> s in b
    ensures a[0] == b[0]
  {
    assert a[0] in b && b[0] in a;
    var j :| 0 <= j < |b| && b[j] == a[0];
    var k :| 0 <= k < |a| && a[k] == b[0];
  }

  lemma TailMembers(a: seq<Span>, s: Span)
    requires InOrder(a) && a != []
    ensures s in a[1..] <==> s in a && s != a[0]
  {
    if s in a && s != a[0] {
      var k :| 0 <= k < |a| && a[k] == s;
      assert a[1..][k - 1] == s;
    }
    if s in a[1..] {
      var k :| 0 <= k < |a[1..]| && a[1..][k] == s;
      assert a[k + 1] == s && a[0].end <= a[k + 1].start;
      assert a[0] in a;
    }
  }

  /** Reordering the rules changes neither acceptance nor the ordered spans. */
  lemma RuleOrderIrrelevant(text: string, rules: seq<Rule>, permuted: seq<Rule>, a: seq<Span>, b: seq<Span>)
    requires multiset(rules) == multiset(permuted)
    requires RulesFine(text, rules) && PairwiseApart(text, rules)
    requires InOrder(a) && ListsSpans(text, rules, a)
    requires InOrder(b) && ListsSpans(text, permuted, b)
    ensures RulesFine(text, permuted) && PairwiseApart(text, permuted)
    ensures a == b
  {
    hide RuleFine, Sorted, Distinct, Matches;
    SameMembers(rules, permuted);
    NeedlesDistinctPermuted(rules, permuted);
    assert |rules| == |multiset(rules)| && |permuted| == |multiset(permuted)|;
    forall s ensures IsSpan(text, rules, s) <==> IsSpan(text, permuted, s) {}
    InOrderUnique(a, b);
  }

  lemma SameMembers(rules: seq<Rule>, permuted: seq<Rule>)
    requires multiset(rules) == multiset(permuted)
    ensures forall rule :: rule in rules <==> rule in permuted
  {
    forall rule ensures rule in rules <==> rule in permuted {
      assert rule in rules <==> rule in multiset(rules);
      assert rule in permuted <==> rule in multiset(permuted);
    }
  }

  lemma NeedlesDistinctPermuted(rules: seq<Rule>, permuted: seq<Rule>)
    requires multiset(rules) == multiset(permuted) && NeedlesDistinct(rules)
    ensures NeedlesDistinct(permuted)
  {
    forall a, b | 0 <= a < b < |permuted| ensures permuted[a].needle != permuted[b].needle {
      if permuted[a].needle == permuted[b].needle {
        SameMembers(rules, permuted);
        assert permuted[a] in rules && permuted[b] in rules;
        var i :| 0 <= i < |rules| && rules[i] == permuted[a];
        var j :| 0 <= j < |rules| && rules[j] == permuted[b];
        assert permuted[a] == permuted[b];
        OnceOnly(rules, i);
        TwiceAtLeast(permuted, a, b);
      }
    }
  }

  lemma OnceOnly(rules: seq<Rule>, i: nat)
    requires NeedlesDistinct(rules) && i < |rules|
    ensures multiset(rules)[rules[i]] == 1
  {
    assert rules == rules[..i] + [rules[i]] + rules[i + 1..];
    assert rules[i] !in rules[..i] && rules[i] !in rules[i + 1..];
    assert multiset(rules) == multiset(rules[..i]) + multiset{rules[i]} + multiset(rules[i + 1..]);
  }

  lemma TwiceAtLeast(rules: seq<Rule>, a: nat, b: nat)
    requires a < b < |rules| && rules[a] == rules[b]
    ensures multiset(rules)[rules[a]] >= 2
  {
    assert rules == rules[..b] + [rules[b]] + rules[b + 1..];
    assert rules[a] in rules[..b];
    assert multiset(rules) == multiset(rules[..b]) + multiset{rules[b]} + multiset(rules[b + 1..]);
  }

  // ----- Splicing -----

  /** Ordered and disjoint; a span may be empty. */
  predicate Ordered(spans: seq<Span>) {
    && (forall s <- spans :: s.start <= s.end)
    && (forall j, k :: 0 <= j < k < |spans| ==> spans[j].end <= spans[k].start)
  }

  predicate FitsAfter(text: string, spans: seq<Span>, cursor: nat) {
    Ordered(spans) && cursor <= |text| && forall s <- spans :: cursor <= s.start && s.end <= |text|
  }

  lemma TailFits(text: string, spans: seq<Span>, cursor: nat)
    requires FitsAfter(text, spans, cursor) && spans != []
    ensures cursor <= spans[0].start <= spans[0].end <= |text|
    ensures FitsAfter(text, spans[1..], spans[0].end)
  {
    assert spans[0] in spans;
  }

  /** The specification of the splicing loop, from `cursor` on. */
  function Splice(text: string, spans: seq<Span>, cursor: nat): string
    requires FitsAfter(text, spans, cursor)
  {
    if spans == [] then text[cursor..]
    else
      TailFits(text, spans, cursor);
      text[cursor..spans[0].start] + spans[0].replacement + Splice(text, spans[1..], spans[0].end)
  }

  method ApplySpans(text: string, spans: seq<Span>) returns (output: string)
    requires FitsAfter(text, spans, 0)
    ensures output == Splice(text, spans, 0)
  {
    hide Ordered;
    output := "";
    var cursor: nat := 0;
    assert spans[0..] == spans;
    for i := 0 to |spans|
      invariant FitsAfter(text, spans[i..], cursor)
      invariant Splice(text, spans, 0) == output + Splice(text, spans[i..], cursor)
    {
      var span := spans[i];
      TailFits(text, spans[i..], cursor);
      SpliceStep(text, spans[i..], cursor, output);
      assert spans[i..][1..] == spans[i + 1..];
      output := output + text[cursor..span.start];
      output := output + span.replacement;
      cursor := span.end;
    }
    output := output + text[cursor..];
  }

  lemma SpliceStep(text: string, spans: seq<Span>, cursor: nat, output: string)
    requires FitsAfter(text, spans, cursor) && spans != []
    ensures FitsAfter(text, spans[1..], spans[0].end) && cursor <= spans[0].start <= |text|
    ensures output + Splice(text, spans, cursor) ==
            output + text[cursor..spans[0].start] + spans[0].replacement
            + Splice(text, spans[1..], spans[0].end)
  {
    TailFits(text, spans, cursor);
  }

  /**
   What the edit means, position by position and without any order of the spans: where a span
   starts, its replacement is written and the span is skipped; any other character is copied.
   */
  ghost function EditedFrom(text: string, spans: iset<Span>, at: nat): string
    requires at <= |text| && forall s <- spans :: s.start < s.end <= |text|
    decreases |text| - at
  {
    if at == |text| then []
    else if exists s :: s in spans && s.start == at then
      var s :| s in spans && s.start == at;
      s.replacement + EditedFrom(text, spans, s.end)
    else [text[at]] + EditedFrom(text, spans, at + 1)
  }

  lemma {:induction false} CopiedUpTo(text: string, spans: iset<Span>, at: nat, next: nat)
    requires at <= next <= |text| && forall s <- spans :: s.start < s.end <= |text|
    requires forall s <- spans :: !(at <= s.start < next)
    ensures EditedFrom(text, spans, at) == text[at..next] + EditedFrom(text, spans, next)
    decreases next - at
  {
    if at < next {
      CopiedUpTo(text, spans, at + 1, next);
      assert text[at..next] == [text[at]] + text[at + 1..next];
    } else {
      assert text[at..next] == [];
    }
  }

  lemma {:induction false} SpliceMeaning(text: string, spans: seq<Span>, all: iset<Span>, cursor: nat)
    requires FitsAfter(text, spans, cursor)
    requires forall s <- all :: s.start < s.end <= |text|
    requires forall s :: s in spans <==> s in all && cursor <= s.start
    ensures Splice(text, spans, cursor) == EditedFrom(text, all, cursor)
    decreases |spans|
  {
    if spans == [] {
      CopiedUpTo(text, all, cursor, |text|);
      assert text[cursor..|text|] == text[cursor..];
    } else {
      var s := spans[0];
      assert s in spans;
      TailFits(text, spans, cursor);
      forall x <- all ensures !(cursor <= x.start < s.start) {
        if cursor <= x.start { FirstStartsFirst(spans, x); }
      }
      CopiedUpTo(text, all, cursor, s.start);
      assert EditedFrom(text, all, s.start) == s.replacement + EditedFrom(text, all, s.end) by {
        forall x | x in all && x.start == s.start ensures x == s { FirstStartsFirst(spans, x); }
      }
      forall x ensures x in spans[1..] <==> x in all && s.end <= x.start {
        if x in all && s.end <= x.start {
          var k :| 0 <= k < |spans| && spans[k] == x;
          assert spans[1..][k - 1] == x;
        }
      }
      SpliceMeaning(text, spans[1..], all, s.end);
    }
  }

  lemma FirstStartsFirst(spans: seq<Span>, x: Span)
    requires Ordered(spans) && x in spans && spans[0].start < spans[0].end
    ensures x == spans[0] || spans[0].end <= x.start
  {}

  /** The bulk edit writes each rule's replacement at its greedy matches and nowhere else. */
  lemma BulkEditMeaning(text: string, rules: seq<Rule>, spans: seq<Span>)
    requires InOrder(spans) && ListsSpans(text, rules, spans)
    ensures FitsAfter(text, spans, 0)
    ensures forall s :: IsSpan(text, rules, s) ==> s.start < s.end <= |text|
    ensures Splice(text, spans, 0) == EditedFrom(text, iset s | IsSpan(text, rules, s), 0)
  {
    forall s | IsSpan(text, rules, s) ensures s.start < s.end <= |text| {
      var rule :| rule in rules && IsRuleSpan(text, rule, s);
      SpanShowsNeedle(text, rule, s);
    }
    SpliceMeaning(text, spans, iset s | IsSpan(text, rules, s), 0);
  }

  // ----- One rule -----

  function RuleSpans(rule: Rule, offsets: seq<nat>): (spans: seq<Span>)
    ensures |spans| == |offsets|
    ensures forall k :: 0 <= k < |offsets| ==> spans[k] == SpanAt(rule, offsets[k])
  {
    seq(|offsets|, i requires 0 <= i < |offsets| => SpanAt(rule, offsets[i]))
  }

  lemma RuleSpansFit(text: string, rule: Rule, from: nat)
    requires rule.needle != [] && from <= |text|
    ensures FitsAfter(text, RuleSpans(rule, Matches(text, rule.needle, from)), from)
  {
    MatchesAreOrdered(text, rule.needle, from);
    var o := Matches(text, rule.needle, from);
    hide Matches;
    forall s <- RuleSpans(rule, o) ensures from <= s.start && s.end <= |text| {
      var k :| 0 <= k < |o| && RuleSpans(rule, o)[k] == s;
      assert MatchAt(text, rule.needle, o[k]);
    }
  }

  lemma {:induction false} ReplaceAllCopies(text: string, needle: string, replacement: string, at: nat, next: nat)
    requires needle != [] && at <= next <= |text|
    requires forall p :: at <= p < next ==> !MatchAt(text, needle, p)
    ensures ReplaceAll(text[at..], needle, replacement) ==
            text[at..next] + ReplaceAll(text[next..], needle, replacement)
    decreases next - at
  {
    if at < next {
      assert text[at..][1..] == text[at + 1..];
      assert MatchAt(text[at..], needle, 0) ==> MatchAt(text, needle, at);
      ReplaceAllCopies(text, needle, replacement, at + 1, next);
      assert text[at..next] == [text[at]] + text[at + 1..next];
    } else {
      assert text[at..next] == [];
    }
  }

  /** With a single rule, search, sort and splice come to one recursive replace-all. */
  lemma {:induction false} SingleRuleIsReplaceAll(text: string, rule: Rule, from: nat)
    requires rule.needle != [] && from <= |text|
    ensures FitsAfter(text, RuleSpans(rule, Matches(text, rule.needle, from)), from)
    ensures Splice(text, RuleSpans(rule, Matches(text, rule.needle, from)), from)
            == ReplaceAll(text[from..], rule.needle, rule.replacement)
    decreases |text| - from
  {
    hide MatchAt, Ordered, Splice, FitsAfter, ReplaceAll, Matches;
    RuleSpansFit(text, rule, from);
    var next := IndexOf(text, rule.needle, from);
    if next.None? {
      NothingToReplace(text, rule, from);
    } else {
      var at := next.value;
      var end := at + |rule.needle|;
      ReplaceAllUnfolds(text, rule, from, at);
      SingleRuleIsReplaceAll(text, rule, end);
      MatchesUnfold(text, rule.needle, from);
      hide IndexOf;
      var spans := RuleSpans(rule, Matches(text, rule.needle, from));
      assert spans[1..] == RuleSpans(rule, Matches(text, rule.needle, end));
      SpliceStep(text, spans, from, "");
      assert "" + Splice(text, spans, from) == Splice(text, spans, from);
      assert "" + text[from..at] == text[from..at];
    }
  }

  lemma NothingToReplace(text: string, rule: Rule, from: nat)
    requires rule.needle != [] && from <= |text| && IndexOf(text, rule.needle, from).None?
    ensures Matches(text, rule.needle, from) == []
    ensures FitsAfter(text, RuleSpans(rule, []), from)
    ensures Splice(text, RuleSpans(rule, []), from) == ReplaceAll(text[from..], rule.needle, rule.replacement)
  {
    ReplaceAllCopies(text, rule.needle, rule.replacement, from, |text|);
    assert text[from..|text|] == text[from..];
  }

  lemma ReplaceAllUnfolds(text: string, rule: Rule, from: nat, at: nat)
    requires rule.needle != [] && from <= |text| && IndexOf(text, rule.needle, from) == Some(at)
    ensures at + |rule.needle| <= |text| && from <= at
    ensures ReplaceAll(text[from..], rule.needle, rule.replacement) ==
            text[from..at] + (rule.replacement + ReplaceAll(text[at + |rule.needle|..], rule.needle, rule.replacement))
  {
    ReplaceAllCopies(text, rule.needle, rule.replacement, from, at);
    assert MatchAt(text[at..], rule.needle, 0);
    assert text[at..][|rule.needle|..] == text[at + |rule.needle|..];
  }

  // ----- Undo -----

  /** Each span moved to where its replacement stands in the output, carrying the removed slice back. */
  function UndoSpans(text: string, spans: seq<Span>, cursor: nat, outCursor: nat): seq<Span>
    requires FitsAfter(text, spans, cursor)
  {
    if spans == [] then []
    else
      TailFits(text, spans, cursor);
      var s := spans[0];
      var start := outCursor + (s.start - cursor);
      [Span(start, start + |s.replacement|, text[s.start..s.end])]
      + UndoSpans(text, spans[1..], s.end, start + |s.replacement|)
  }

  function Growth(spans: seq<Span>): int {
    if spans == [] then 0
    else |spans[0].replacement| - (spans[0].end - spans[0].start) + Growth(spans[1..])
  }

  lemma {:induction false} SpliceLength(text: string, spans: seq<Span>, cursor: nat)
    requires FitsAfter(text, spans, cursor)
    ensures |Splice(text, spans, cursor)| == |text| - cursor + Growth(spans)
    decreases |spans|
  {
    if spans != [] {
      TailFits(text, spans, cursor);
      SpliceLength(text, spans[1..], spans[0].end);
    }
  }

  lemma {:induction false} UndoFits(text: string, spans: seq<Span>, cursor: nat, prefix: string)
    requires FitsAfter(text, spans, cursor)
    ensures FitsAfter(prefix + Splice(text, spans, cursor), UndoSpans(text, spans, cursor, |prefix|), |prefix|)
    decreases |spans|
  {
    if spans != [] {
      TailFits(text, spans, cursor);
      var s := spans[0];
      var longer := prefix + text[cursor..s.start] + s.replacement;
      UndoFits(text, spans[1..], s.end, longer);
      SpliceStep(text, spans, cursor, prefix);
      var rest := UndoSpans(text, spans[1..], s.end, |longer|);
      var undo := UndoSpans(text, spans, cursor, |prefix|);
      assert undo == [undo[0]] + rest;
      FitsBehind(prefix + Splice(text, spans, cursor), undo[0], rest, |prefix|);
    }
  }

  lemma FitsBehind(text: string, s: Span, rest: seq<Span>, cursor: nat)
    requires cursor <= s.start <= s.end && FitsAfter(text, rest, s.end)
    ensures FitsAfter(text, [s] + rest, cursor)
  {
    var all := [s] + rest;
    forall j, k | 0 <= j < k < |all| ensures all[j].end <= all[k].start {
      assert all[k] == rest[k - 1] && rest[k - 1] in rest;
    }
  }

  /** The returned spans and the removed slices are enough to rebuild the original text exactly. */
  lemma {:induction false} UndoRestores(text: string, spans: seq<Span>, cursor: nat, prefix: string)
    requires FitsAfter(text, spans, cursor)
    ensures var output := prefix + Splice(text, spans, cursor);
            var undo := UndoSpans(text, spans, cursor, |prefix|);
            FitsAfter(output, undo, |prefix|) && Splice(output, undo, |prefix|) == text[cursor..]
    decreases |spans|
  {
    UndoFits(text, spans, cursor, prefix);
    if spans == [] {
      assert (prefix + text[cursor..])[|prefix|..] == text[cursor..];
    } else {
      TailFits(text, spans, cursor);
      UndoRestores(text, spans[1..], spans[0].end, prefix + text[cursor..spans[0].start] + spans[0].replacement);
      UndoRestoresOne(text, spans, cursor, prefix);
    }
  }

  lemma UndoRestoresOne(text: string, spans: seq<Span>, cursor: nat, prefix: string)
    requires FitsAfter(text, spans, cursor) && spans != []
    requires FitsAfter(text, spans[1..], spans[0].end)
    requires cursor <= spans[0].start <= spans[0].end <= |text|
    requires var output := prefix + Splice(text, spans, cursor);
             FitsAfter(output, UndoSpans(text, spans, cursor, |prefix|), |prefix|)
    requires var longer := prefix + text[cursor..spans[0].start] + spans[0].replacement;
             var output := longer + Splice(text, spans[1..], spans[0].end);
             var undo := UndoSpans(text, spans[1..], spans[0].end, |longer|);
             FitsAfter(output, undo, |longer|) && Splice(output, undo, |longer|) == text[spans[0].end..]
    ensures var output := prefix + Splice(text, spans, cursor);
            Splice(output, UndoSpans(text, spans, cursor, |prefix|), |prefix|) == text[cursor..]
  {
    hide Splice, UndoSpans, FitsAfter, Ordered;
    var s := spans[0];
    var output := prefix + Splice(text, spans, cursor);
    var undo := UndoSpans(text, spans, cursor, |prefix|);
    SpliceStep(text, spans, cursor, prefix);
    UndoStep(text, spans, cursor, prefix);
    SpliceStep(output, undo, |prefix|, "");
    OutputKeeps(prefix, text[cursor..s.start], s.replacement, Splice(text, spans[1..], s.end), output);
    Rejoin(text, cursor, s.start, s.end, Splice(output, undo, |prefix|));
  }

  lemma Rejoin(text: string, a: nat, b: nat, c: nat, rebuilt: string)
    requires a <= b <= c <= |text|
    requires "" + rebuilt == "" + text[a..b] + text[b..c] + text[c..]
    ensures rebuilt == text[a..]
  {
    assert rebuilt == "" + rebuilt;
    assert "" + text[a..b] + text[b..c] + text[c..] == text[a..];
  }

  lemma UndoStep(text: string, spans: seq<Span>, cursor: nat, prefix: string)
    requires FitsAfter(text, spans, cursor) && spans != []
    ensures FitsAfter(text, spans[1..], spans[0].end) && cursor <= spans[0].start <= spans[0].end <= |text|
    ensures var s := spans[0];
            var longer := prefix + text[cursor..s.start] + s.replacement;
            var undo := UndoSpans(text, spans, cursor, |prefix|);
            && |undo| > 0
            && undo[0] == Span(|prefix| + s.start - cursor, |longer|, text[s.start..s.end])
            && undo[1..] == UndoSpans(text, spans[1..], s.end, |longer|)
  {
    TailFits(text, spans, cursor);
    UndoUnfolds(text, spans, cursor, |prefix|);
    hide FitsAfter, UndoSpans;
    var s := spans[0];
    var start := |prefix| + (s.start - cursor);
    var head := [Span(start, start + |s.replacement|, text[s.start..s.end])];
    var rest := UndoSpans(text, spans[1..], s.end, start + |s.replacement|);
    assert |prefix + text[cursor..s.start] + s.replacement| == start + |s.replacement|;
    assert UndoSpans(text, spans, cursor, |prefix|) == head + rest;
    assert (head + rest)[1..] == rest;
  }

  lemma UndoUnfolds(text: string, spans: seq<Span>, cursor: nat, outCursor: nat)
    requires FitsAfter(text, spans, cursor) && spans != []
    ensures FitsAfter(text, spans[1..], spans[0].end) && cursor <= spans[0].start <= spans[0].end <= |text|
    ensures UndoSpans(text, spans, cursor, outCursor)
         == [Span(outCursor + (spans[0].start - cursor), outCursor + (spans[0].start - cursor) + |spans[0].replacement|,
                  text[spans[0].start..spans[0].end])]
            + UndoSpans(text, spans[1..], spans[0].end, outCursor + (spans[0].start - cursor) + |spans[0].replacement|)
  {
    TailFits(text, spans, cursor);
    hide FitsAfter;
  }

  lemma OutputKeeps(prefix: string, kept: string, written: string, rest: string, output: string)
    requires output == prefix + kept + written + rest
    ensures output[|prefix|..|prefix| + |kept|] == kept
  {}
}
