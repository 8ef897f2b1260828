/** One planned T123 edit: literal spans, splice, and the structural gate on the result. */
module CodeEditPlan {
  import opened Prelude
  import opened Text
  import opened LiteralEdits
  import opened TagStructure

  // ----- Comments and NUL -----

  const COMMENT_OPEN := "<!--"
  const COMMENT_CLOSE := "-->"

  /** The reference scanner for comments: one position after the other. */
  function CommentIssues(code: string, at: nat): seq<Issue>
    decreases |code| - at
  {
    if at >= |code| then []
    else if MatchAt(code, COMMENT_CLOSE, at) then
      [Issue(StrayCommentClose, at)] + CommentIssues(code, at + 3)
    else if MatchAt(code, COMMENT_OPEN, at) then
      var close := IndexOf(code, COMMENT_CLOSE, at + 4);
      if close.None? then [Issue(UnclosedComment, at)] else CommentIssues(code, close.value + 3)
    else CommentIssues(code, at + 1)
  }

  lemma {:induction false} NoCommentBetween(code: string, at: nat, next: nat)
    requires at <= next
    requires forall p :: at <= p < next ==> !MatchAt(code, COMMENT_OPEN, p) && !MatchAt(code, COMMENT_CLOSE, p)
    ensures CommentIssues(code, at) == CommentIssues(code, next)
    decreases next - at
  {
    if at < next && at < |code| {
      hide MatchAt;
      NoCommentBetween(code, at + 1, next);
    }
  }

  lemma CommentStep(code: string, at: nat)
    requires at < |code|
    ensures MatchAt(code, COMMENT_CLOSE, at) ==>
              CommentIssues(code, at) == [Issue(StrayCommentClose, at)] + CommentIssues(code, at + 3)
    ensures MatchAt(code, COMMENT_OPEN, at) ==>
              CommentIssues(code, at) ==
              (var close := IndexOf(code, COMMENT_CLOSE, at + 4);
               if close.None? then [Issue(UnclosedComment, at)] else CommentIssues(code, close.value + 3))
  {
    CharAt(code, COMMENT_OPEN, at, 0);
    CharAt(code, COMMENT_CLOSE, at, 0);
    hide MatchAt;
  }

  lemma CommentEnds(code: string, at: nat)
    requires forall p :: at <= p ==> !MatchAt(code, COMMENT_OPEN, p) && !MatchAt(code, COMMENT_CLOSE, p)
    ensures CommentIssues(code, at) == []
  {
    NoCommentBetween(code, at, if at <= |code| then |code| else at);
  }

  lemma MatchInside(code: string, needle: string, at: nat)
    requires MatchAt(code, needle, at) && needle != []
    ensures at < |code|
  {}

  method ScanComments(code: string) returns (issues: seq<Issue>)
    ensures issues == CommentIssues(code, 0)
  {
    hide MatchAt, CommentIssues;
    issues := [];
    var cursor: nat := 0;
    ghost var all := CommentIssues(code, 0);
    while cursor < |code|
      invariant issues + CommentIssues(code, cursor) == all
      decreases |code| - cursor
    {
      var open := IndexOf(code, COMMENT_OPEN, cursor);
      var close := IndexOf(code, COMMENT_CLOSE, cursor);
      if close.Some? && (open.None? || close.value < open.value) {
        MatchInside(code, COMMENT_CLOSE, close.value);
        NoCommentBetween(code, cursor, close.value);
        CommentStep(code, close.value);
        ghost var rest := CommentIssues(code, close.value + 3);
        assert issues + ([Issue(StrayCommentClose, close.value)] + rest)
            == (issues + [Issue(StrayCommentClose, close.value)]) + rest;
        issues := issues + [Issue(StrayCommentClose, close.value)];
        cursor := close.value + 3;
      } else if open.None? {
        CommentEnds(code, cursor);
        assert issues + [] == issues;
        return;
      } else {
        MatchInside(code, COMMENT_OPEN, open.value);
        NoCommentBetween(code, cursor, open.value);
        CommentStep(code, open.value);
        var matchingClose := IndexOf(code, COMMENT_CLOSE, open.value + 4);
        if matchingClose.None? {
          issues := issues + [Issue(UnclosedComment, open.value)];
          return;
        }
        cursor := matchingClose.value + 3;
      }
    }
    CommentsPastEnd(code, cursor);
    assert issues + [] == issues;
  }

  lemma CommentsPastEnd(code: string, at: nat)
    requires at >= |code|
    ensures CommentIssues(code, at) == []
  {}

  // ----- The structural gate -----

  predicate TagSound(code: string, tag: TagName) {
    Terminated(Tokens(code, tag, 0)) && Balanced(Tokens(code, tag, 0))
  }

  /** No NUL, comments closed and not stray, scripts and styles terminated and balanced. */
  predicate StructureSound(code: string) {
    && '\0' !in code
    && CommentIssues(code, 0) == []
    && TagSound(code, Script)
    && TagSound(code, Style)
  }

  /** The first NUL, if there is one. */
  function NulIssues(code: string): seq<Issue> {
    var nul := IndexOf(code, "\0", 0);
    if nul.Some? then [Issue(NulCharacter, nul.value)] else []
  }

  /** Lists the NUL, every comment issue and every issue of the two tags, each as often as its part reports it. */
  method InspectStructure(code: string) returns (issues: seq<Issue>)
    ensures issues == [] <==> StructureSound(code)
    ensures multiset(issues)
         == multiset(NulIssues(code)) + multiset(CommentIssues(code, 0))
            + multiset(Report(Tokens(code, Script, 0))) + multiset(Report(Tokens(code, Style, 0)))
  {
    hide Tokens, CommentIssues, Report, Terminated, Balanced;
    issues := [];
    var nul := IndexOf(code, "\0", 0);
    NulSearch(code);
    if nul.Some? { issues := [Issue(NulCharacter, nul.value)]; }
    var comments := ScanComments(code);
    var scripts := TrackedTagIssues(code, Script);
    var styles := TrackedTagIssues(code, Style);
    SilentIffBalanced(Tokens(code, Script, 0));
    SilentIffBalanced(Tokens(code, Style, 0));
    issues := issues + comments + scripts + styles;
  }

  lemma NulSearch(code: string)
    ensures IndexOf(code, "\0", 0).None? <==> '\0' !in code
  {
    var nul := IndexOf(code, "\0", 0);
    if nul.Some? {
      CharAt(code, "\0", nul.value, 0);
    } else {
      forall i | 0 <= i < |code| ensures code[i] != '\0' {
        assert !MatchAt(code, "\0", i);
        assert code[i..i + 1] == [code[i]];
      }
    }
  }

  // ----- The plan -----

  datatype EditPlan = EditPlan(code: string, spans: seq<Span>)

  /** The text that the rules ask for, whatever their order. */
  ghost function Requested(current: string, rules: seq<Rule>): string
    requires forall s :: IsSpan(current, rules, s) ==> s.start < s.end <= |current|
  {
    EditedFrom(current, iset s | IsSpan(current, rules, s), 0)
  }

  ghost predicate EditAccepted(current: string, rules: seq<Rule>) {
    && RulesFine(current, rules) && PairwiseApart(current, rules)
    && (forall s :: IsSpan(current, rules, s) ==> s.start < s.end <= |current|)
    && Requested(current, rules) != current
    && Bounded(Requested(current, rules))
    && StructureSound(Requested(current, rules))
  }

  /** `dependenciesInLimit` is the outcome of the URL extraction on the planned text. */
  method PlanBulkLiteralReplacements(current: string, rules: seq<Rule>, dependenciesInLimit: bool)
    returns (r: Result<EditPlan, EditError>)
    ensures r.Ok? <==> Bounded(current) && EditAccepted(current, rules) && dependenciesInLimit
    ensures r.Ok? ==> r.value.code == Requested(current, rules)
    ensures r.Ok? ==> FitsAfter(current, r.value.spans, 0)
                      && InOrder(r.value.spans) && ListsSpans(current, rules, r.value.spans)
    ensures !Bounded(current) ==> r == Err(LimitExceeded)
    ensures Bounded(current) && !(1 <= |rules| <= MAX_LITERAL_RULES) ==> r == Err(LimitExceeded)
    ensures Bounded(current) && 1 <= |rules| <= MAX_LITERAL_RULES ==>
              forall i: nat :: FirstFault(current, rules, i) ==> r == Err(FaultAt(current, rules, i).value)
    ensures Bounded(current) && RulesFine(current, rules) && !PairwiseApart(current, rules) ==> r == Err(OverlappingReplacements)
    ensures Bounded(current) && RulesFine(current, rules) && PairwiseApart(current, rules) ==>
              && (forall s :: IsSpan(current, rules, s) ==> s.start < s.end <= |current|)
              && var code := Requested(current, rules);
                 (r.Err? ==> r.error == if !Bounded(code) then LimitExceeded else if code == current then NoChange
                                        else if !StructureSound(code) then StructuralDamage else LimitExceeded)
    ensures r.Ok? ==> (var undo := UndoSpans(current, r.value.spans, 0, 0);
                       FitsAfter(r.value.code, undo, 0) && Splice(r.value.code, undo, 0) == current)
  {
    hide Bounded, StructureSound, RulesFine, PairwiseApart, ListsSpans, InOrder, FitsAfter, Splice;
    hide UndoSpans, EditedFrom, FirstFault, FaultAt;
    if !Bounded(current) { return Err(LimitExceeded); }
    var found := LiteralSpans(current, rules);
    if found.Err? { return Err(found.error); }
    var spans := found.value;
    BulkEditMeaning(current, rules, spans);
    var code := ApplySpans(current, spans);
    if !Bounded(code) { return Err(LimitExceeded); }
    if current == code { return Err(NoChange); }
    var issues := InspectStructure(code);
    if |issues| > 0 { return Err(StructuralDamage); }
    if !dependenciesInLimit { return Err(LimitExceeded); }
    UndoRestores(current, spans, 0, "");
    assert "" + code == code && current[0..] == current;
    r := Ok(EditPlan(code, spans));
  }
}
