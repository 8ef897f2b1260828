/** The structural scanner for T123 code: tag declarations, their balance, and comments. */
module TagStructure {
  import opened Prelude
  import opened Text

  datatype IssueCode = NulCharacter | StrayCommentClose | UnclosedComment | UnclosedTag | TagUnbalanced

  datatype Issue = Issue(code: IssueCode, offset: nat)

  function LowerChar(c: char): char {
    if 'A' <= c <= 'Z' then (c as int + 32) as char else c
  }

  function AsciiLower(text: string): (lower: string)
    ensures |lower| == |text|
    ensures forall i :: 0 <= i < |text| ==> lower[i] == LowerChar(text[i])
  {
    seq(|text|, i requires 0 <= i < |text| => LowerChar(text[i]))
  }

  predicate IsSpace(c: char) { c == ' ' || c == '\t' || c == '\r' || c == '\n' || c == '\U{c}' }

  predicate IsBoundary(c: char) { c == '>' || c == '/' || IsSpace(c) }

  // ----- The end of one tag declaration -----

  /** The quotation mark that is open just before `at`, reading from `start`. */
  function QuoteBefore(code: string, start: nat, at: nat): (quote: Option<char>)
    requires start <= at <= |code|
    ensures quote.Some? ==> quote.value == '"' || quote.value == '\''
    decreases at
  {
    if at == start then None
    else
      var q := QuoteBefore(code, start, at - 1);
      var c := code[at - 1];
      if q.Some? then (if c == q.value then None else q)
      else if c == '"' || c == '\'' then Some(c) else None
  }

  predicate ClosesTag(code: string, start: nat, at: nat)
    requires start <= at < |code|
  {
    code[at] == '>' && QuoteBefore(code, start, at).None?
  }

  /** The first '>' outside quotation marks. */
  predicate IsTagEnd(code: string, start: nat, end: Option<nat>) {
    && (end.Some? ==> start <= end.value < |code| && ClosesTag(code, start, end.value))
    && (forall p :: start <= p < (if end.Some? then end.value else |code|) && p < |code| ==>
          !ClosesTag(code, start, p))
  }

  /** The specification function of the search below. */
  function TagEnd(code: string, start: nat, at: nat): (end: Option<nat>)
    requires start <= at
    decreases |code| - at
  {
    if at >= |code| then None
    else if ClosesTag(code, start, at) then Some(at)
    else TagEnd(code, start, at + 1)
  }

  lemma {:induction false} TagEndIsFirst(code: string, start: nat, at: nat)
    requires start <= at && forall p :: start <= p < at && p < |code| ==> !ClosesTag(code, start, p)
    ensures IsTagEnd(code, start, TagEnd(code, start, at))
    decreases |code| - at
  {
    if at < |code| && !ClosesTag(code, start, at) {
      TagEndIsFirst(code, start, at + 1);
    }
  }

  method FindTagEnd(code: string, start: nat) returns (end: Option<nat>)
    ensures end == TagEnd(code, start, start) && IsTagEnd(code, start, end)
    ensures end.Some? ==> start <= end.value < |code|
  {
    TagEndIsFirst(code, start, start);
    hide IsTagEnd;
    var quote: Option<char> := None;
    var index := start;
    while index < |code|
      invariant start <= index && (start <= |code| ==> index <= |code|)
      invariant index <= |code| ==> quote == QuoteBefore(code, start, index)
      invariant TagEnd(code, start, index) == TagEnd(code, start, start)
      decreases |code| - index
    {
      var character := code[index];
      if quote.Some? {
        if character == quote.value { quote := None; }
      } else if character == '"' || character == '\'' {
        quote := Some(character);
      } else if character == '>' {
        return Some(index);
      }
      index := index + 1;
    }
    end := None;
  }

  // ----- The stream of tag declarations -----

  datatype Token =
    | Open(offset: nat)
    | Close(offset: nat)
    | SelfClosing(offset: nat)
    | Unterminated(offset: nat)

  datatype TagName = Script | Style

  function NameText(tag: TagName): string {
    match tag case Script => "script" case Style => "style"
  }

  function OpeningText(tag: TagName): string { "<" + NameText(tag) }

  function ClosingText(tag: TagName): string { "</" + NameText(tag) }

  function TokenText(tag: TagName, closing: bool): string {
    if closing then ClosingText(tag) else OpeningText(tag)
  }

  /** A declaration of the tag starts at `at`: its text, then a character that ends the name. */
  predicate TagStarts(lower: string, tag: TagName, closing: bool, at: nat) {
    var after := at + |TokenText(tag, closing)|;
    MatchAt(lower, TokenText(tag, closing), at) && after < |lower| && IsBoundary(lower[after])
  }

  /** The last character before the closing '>' that is not white space is a slash. */
  function LastSolid(code: string, offset: nat, at: nat): (solid: nat)
    requires offset <= at < |code|
    ensures offset <= solid <= at
    decreases at
  {
    if at > offset && IsSpace(code[at]) then LastSolid(code, offset, at - 1) else at
  }

  predicate EndsWithSlash(code: string, offset: nat, end: nat)
    requires offset < end < |code|
  {
    code[LastSolid(code, offset, end - 1)] == '/'
  }

  function TokenOf(code: string, closing: bool, offset: nat, end: nat): Token
    requires offset < end < |code|
  {
    if closing then Close(offset)
    else if EndsWithSlash(code, offset, end) then SelfClosing(offset)
    else Open(offset)
  }

  /** The reference scanner: look at every position in turn. */
  function Tokens(code: string, tag: TagName, at: nat): seq<Token>
    decreases |code| - at
  {
    if at >= |code| then []
    else if TagStarts(AsciiLower(code), tag, false, at) then Declaration(code, tag, false, at)
    else if TagStarts(AsciiLower(code), tag, true, at) then Declaration(code, tag, true, at)
    else Tokens(code, tag, at + 1)
  }

  function Declaration(code: string, tag: TagName, closing: bool, at: nat): seq<Token>
    requires at < |code|
    decreases |code| - at, 0
  {
    var nameEnd := at + |TokenText(tag, closing)|;
    var end := TagEnd(code, nameEnd, nameEnd);
    TagEndIsFirst(code, nameEnd, nameEnd);
    if end.None? then [Unterminated(at)]
    else [TokenOf(code, closing, at, end.value)] + Tokens(code, tag, end.value + 1)
  }

  // ----- What the stream means -----

  /** The open declarations still unmatched, and the issues met so far, after reading the tokens. */
  function OpenAfter(tokens: seq<Token>): (stack: seq<nat>) {
    if tokens == [] then []
    else
      var stack := OpenAfter(tokens[..|tokens| - 1]);
      match tokens[|tokens| - 1]
      case Open(offset) => stack + [offset]
      case Close(_) => if stack == [] then [] else stack[..|stack| - 1]
      case _ => stack
  }

  function IssuesAfter(tokens: seq<Token>): seq<Issue> {
    if tokens == [] then []
    else
      var before := tokens[..|tokens| - 1];
      match tokens[|tokens| - 1]
      case Close(offset) =>
        if OpenAfter(before) == [] then IssuesAfter(before) + [Issue(TagUnbalanced, offset)]
        else IssuesAfter(before)
      case Unterminated(offset) => IssuesAfter(before) + [Issue(UnclosedTag, offset)]
      case _ => IssuesAfter(before)
  }

  function Unbalanced(offsets: seq<nat>): (issues: seq<Issue>)
    ensures |issues| == |offsets|
    ensures forall k :: 0 <= k < |offsets| ==> issues[k] == Issue(TagUnbalanced, offsets[k])
  {
    seq(|offsets|, i requires 0 <= i < |offsets| => Issue(TagUnbalanced, offsets[i]))
  }

  function Report(tokens: seq<Token>): seq<Issue> {
    IssuesAfter(tokens) + Unbalanced(OpenAfter(tokens))
  }

  function Opens(tokens: seq<Token>): nat {
    if tokens == [] then 0
    else Opens(tokens[..|tokens| - 1]) + (if tokens[|tokens| - 1].Open? then 1 else 0)
  }

  function Closes(tokens: seq<Token>): nat {
    if tokens == [] then 0
    else Closes(tokens[..|tokens| - 1]) + (if tokens[|tokens| - 1].Close? then 1 else 0)
  }

  /** No prefix closes more than it opened, and everything opened is closed. */
  predicate Balanced(tokens: seq<Token>) {
    && (forall k :: 0 <= k <= |tokens| ==> Closes(tokens[..k]) <= Opens(tokens[..k]))
    && Closes(tokens) == Opens(tokens)
  }

  predicate Terminated(tokens: seq<Token>) {
    forall t <- tokens :: !t.Unterminated?
  }

  // ----- The scanner -----

  lemma {:induction false} NoTagBetween(code: string, tag: TagName, at: nat, next: nat)
    requires at <= next
    requires forall p, closing :: at <= p < next && p < |code| ==> !TagStarts(AsciiLower(code), tag, closing, p)
    ensures Tokens(code, tag, at) == Tokens(code, tag, next)
    decreases next - at
  {
    if at < next && at < |code| {
      hide TagStarts;
      NoTagBetween(code, tag, at + 1, next);
    }
  }

  /** Inside the text of a name no other declaration can start: '<' stands only at its front. */
  lemma NoTagInsideName(lower: string, tag: TagName, closing: bool, at: nat, p: nat)
    requires MatchAt(lower, TokenText(tag, closing), at)
    requires at < p < at + |TokenText(tag, closing)|
    ensures forall c :: !TagStarts(lower, tag, c, p)
  {
    hide MatchAt;
    BracketOnlyInFront(tag, closing, p - at);
    CharAt(lower, TokenText(tag, closing), at, p - at);
    forall c ensures !TagStarts(lower, tag, c, p) {
      BracketOnlyInFront(tag, c, 0);
      hide TokenText;
      CharAt(lower, TokenText(tag, c), p, 0);
    }
  }

  lemma BracketOnlyInFront(tag: TagName, closing: bool, k: nat)
    requires k < |TokenText(tag, closing)|
    ensures TokenText(tag, closing)[k] == '<' <==> k == 0
  {
    var prefix := if closing then 2 else 1;
    if k >= prefix {
      assert TokenText(tag, closing)[k] == NameText(tag)[k - prefix];
      NameHasNoBracket(tag, k - prefix);
    }
  }

  lemma NameHasNoBracket(tag: TagName, k: nat)
    requires k < |NameText(tag)|
    ensures NameText(tag)[k] != '<'
  {
    assert k == 0 || k == 1 || k == 2 || k == 3 || k == 4 || k == 5;
  }

  lemma CharAt(text: string, needle: string, at: nat, k: nat)
    requires k < |needle|
    ensures MatchAt(text, needle, at) ==> at + k < |text| && text[at + k] == needle[k]
  {
    if MatchAt(text, needle, at) {
      assert text[at..at + |needle|][k] == needle[k];
    }
  }

  lemma OneKindOfTag(lower: string, tag: TagName, at: nat)
    ensures !(MatchAt(lower, OpeningText(tag), at) && MatchAt(lower, ClosingText(tag), at))
  {
    CharAt(lower, OpeningText(tag), at, 1);
    CharAt(lower, ClosingText(tag), at, 1);
  }

  /** No tag text begins at or after `from`, up to `limit` when there is one. */
  ghost predicate NoTagText(lower: string, tag: TagName, from: nat, limit: Option<nat>) {
    forall p: nat, c :: from <= p && (limit.None? || p < limit.value) ==> !MatchAt(lower, TokenText(tag, c), p)
  }

  /** What one search from `cursor` tells about the token stream. */
  lemma NearestCandidate(code: string, tag: TagName, cursor: nat, closing: bool, offset: nat)
    requires cursor <= offset && MatchAt(AsciiLower(code), TokenText(tag, closing), offset)
    requires NoTagText(AsciiLower(code), tag, cursor, Some(offset))
    ensures Tokens(code, tag, cursor) ==
            if TagStarts(AsciiLower(code), tag, closing, offset) then Declaration(code, tag, closing, offset)
            else Tokens(code, tag, offset + |TokenText(tag, closing)|)
  {
    var lower := AsciiLower(code);
    assert forall p, c :: cursor <= p < offset ==> !TagStarts(lower, tag, c, p);
    hide MatchAt, TagStarts, AsciiLower, NoTagText, Declaration;
    NoTagBetween(code, tag, cursor, offset);
    if TagStarts(lower, tag, closing, offset) {
      OneKindOfTag(lower, tag, offset);
    } else {
      NameIsSkipped(code, tag, closing, offset);
    }
  }

  /** A tag text that begins no declaration hides none inside its own name. */
  lemma NameIsSkipped(code: string, tag: TagName, closing: bool, offset: nat)
    requires MatchAt(AsciiLower(code), TokenText(tag, closing), offset)
    requires !TagStarts(AsciiLower(code), tag, closing, offset)
    ensures Tokens(code, tag, offset) == Tokens(code, tag, offset + |TokenText(tag, closing)|)
  {
    var lower, after := AsciiLower(code), offset + |TokenText(tag, closing)|;
    OneKindOfTag(lower, tag, offset);
    forall p, c | offset <= p < after && p < |code| ensures !TagStarts(lower, tag, c, p) {
      if p > offset { NoTagInsideName(lower, tag, closing, offset, p); }
    }
    hide MatchAt, TagStarts;
    NoTagBetween(code, tag, offset, after);
  }

  lemma NoCandidate(code: string, tag: TagName, cursor: nat)
    requires NoTagText(AsciiLower(code), tag, cursor, None)
    ensures Tokens(code, tag, cursor) == []
  {
    var end := if cursor <= |code| then |code| else cursor;
    assert forall p, c :: cursor <= p ==> !TagStarts(AsciiLower(code), tag, c, p);
    NoTagBetween(code, tag, cursor, end);
  }

  method NextCandidate(lower: string, tag: TagName, cursor: nat) returns (r: Option<(nat, bool)>)
    ensures r.Some? ==> cursor <= r.value.0 && MatchAt(lower, TokenText(tag, r.value.1), r.value.0)
    ensures NoTagText(lower, tag, cursor, if r.Some? then Some(r.value.0) else None)
  {
    hide MatchAt;
    var openAt := IndexOf(lower, OpeningText(tag), cursor);
    var closeAt := IndexOf(lower, ClosingText(tag), cursor);
    if openAt.None? && closeAt.None? { return None; }
    if closeAt.None? || (openAt.Some? && openAt.value < closeAt.value) {
      return Some((openAt.value, false));
    }
    return Some((closeAt.value, true));
  }

  /** The tokens read so far, with those still ahead of `cursor`, make up the whole stream. */
  ghost predicate ReadUpTo(code: string, tag: TagName, done: seq<Token>, cursor: nat) {
    done + Tokens(code, tag, cursor) == Tokens(code, tag, 0)
  }

  lemma NothingRead(code: string, tag: TagName)
    ensures ReadUpTo(code, tag, [], 0)
  {
    assert [] + Tokens(code, tag, 0) == Tokens(code, tag, 0);
  }

  lemma ReadOn(code: string, tag: TagName, done: seq<Token>, cursor: nat, next: nat)
    requires ReadUpTo(code, tag, done, cursor) && Tokens(code, tag, cursor) == Tokens(code, tag, next)
    ensures ReadUpTo(code, tag, done, next)
  {}

  lemma ReadOne(code: string, tag: TagName, done: seq<Token>, cursor: nat, t: Token, next: nat)
    requires ReadUpTo(code, tag, done, cursor) && Tokens(code, tag, cursor) == [t] + Tokens(code, tag, next)
    ensures ReadUpTo(code, tag, done + [t], next)
  {
    hide Tokens;
    assert done + ([t] + Tokens(code, tag, next)) == (done + [t]) + Tokens(code, tag, next);
  }

  lemma ReadLast(code: string, tag: TagName, done: seq<Token>, cursor: nat, t: Token)
    requires ReadUpTo(code, tag, done, cursor) && Tokens(code, tag, cursor) == [t]
    ensures done + [t] == Tokens(code, tag, 0)
  {}

  lemma ReadAll(code: string, tag: TagName, done: seq<Token>, cursor: nat)
    requires ReadUpTo(code, tag, done, cursor) && Tokens(code, tag, cursor) == []
    ensures done == Tokens(code, tag, 0)
  {
    assert done + [] == done;
  }

  method TrackedTagIssues(code: string, tag: TagName) returns (issues: seq<Issue>)
    ensures issues == Report(Tokens(code, tag, 0))
  {
    hide MatchAt, TagStarts, Tokens, TokenText, TagEnd, IsTagEnd, IsBoundary, AsciiLower;
    hide OpenAfter, IssuesAfter, EndsWithSlash, TokenOf, NoTagText, ReadUpTo;
    var lower := AsciiLower(code);
    var stack: seq<nat> := [];
    issues := [];
    var cursor := 0;
    ghost var done: seq<Token> := [];
    var searching := true;
    NothingScanned();
    NothingRead(code, tag);
    while searching && cursor < |lower|
      invariant if searching then ReadUpTo(code, tag, done, cursor) else done == Tokens(code, tag, 0)
      invariant stack == OpenAfter(done) && issues == IssuesAfter(done)
      decreases searching, |lower| - cursor
    {
      var candidate := NextCandidate(lower, tag, cursor);
      if candidate.None? {
        NoCandidate(code, tag, cursor);
        ReadAll(code, tag, done, cursor);
        searching := false;
      } else {
        var (offset, closing) := candidate.value;
        var nameEnd := offset + |TokenText(tag, closing)|;
        NearestCandidate(code, tag, cursor, closing, offset);
        TokenInRange(lower, tag, closing, offset);
        if !(nameEnd < |lower| && IsBoundary(lower[nameEnd])) {
          assert !TagStarts(lower, tag, closing, offset) by { NotAStart(lower, tag, closing, offset); }
          ReadOn(code, tag, done, cursor, nameEnd);
          cursor := nameEnd;
        } else {
          AStart(lower, tag, closing, offset);
          var end := FindTagEnd(code, nameEnd);
          if end.None? {
            issues := issues + [Issue(UnclosedTag, offset)];
            ReadLast(code, tag, done, cursor, Unterminated(offset));
            done := Extend(done, Unterminated(offset));
            searching := false;
          } else {
            stack, issues := TakeTag(code, closing, offset, end.value, stack, issues, done);
            ReadOne(code, tag, done, cursor, TokenOf(code, closing, offset, end.value), end.value + 1);
            done := Extend(done, TokenOf(code, closing, offset, end.value));
            cursor := end.value + 1;
          }
        }
      }
    }
    if searching {
      PastEnd(code, tag, cursor);
      ReadAll(code, tag, done, cursor);
    }
    var unbalanced := UnbalancedIssues(stack);
    issues := issues + unbalanced;
  }

  /** One complete declaration: an open tag is pushed, a close tag pops or is reported. */
  method TakeTag(code: string, closing: bool, offset: nat, end: nat, stack: seq<nat>, issues: seq<Issue>,
                 ghost done: seq<Token>)
    returns (nextStack: seq<nat>, nextIssues: seq<Issue>)
    requires offset < end < |code| && stack == OpenAfter(done) && issues == IssuesAfter(done)
    ensures nextStack == OpenAfter(done + [TokenOf(code, closing, offset, end)])
    ensures nextIssues == IssuesAfter(done + [TokenOf(code, closing, offset, end)])
  {
    hide OpenAfter, IssuesAfter, EndsWithSlash;
    nextStack, nextIssues := stack, issues;
    if closing {
      if |stack| == 0 {
        nextIssues := issues + [Issue(TagUnbalanced, offset)];
      } else {
        nextStack := stack[..|stack| - 1];
      }
    } else {
      var slash := HasClosingSlash(code, offset, end);
      if !slash { nextStack := stack + [offset]; }
    }
    ghost var after := Extend(done, TokenOf(code, closing, offset, end));
  }

  method UnbalancedIssues(stack: seq<nat>) returns (unbalanced: seq<Issue>)
    ensures unbalanced == Unbalanced(stack)
  {
    unbalanced := [];
    for i := 0 to |stack|
      invariant unbalanced == Unbalanced(stack[..i])
    {
      assert stack[..i + 1] == stack[..i] + [stack[i]];
      unbalanced := unbalanced + [Issue(TagUnbalanced, stack[i])];
    }
    assert stack[..|stack|] == stack;
  }

  method HasClosingSlash(code: string, offset: nat, end: nat) returns (slash: bool)
    requires offset < end < |code|
    ensures slash == EndsWithSlash(code, offset, end)
  {
    var beforeEnd := end - 1;
    while beforeEnd > offset && IsSpace(code[beforeEnd])
      invariant offset <= beforeEnd < end
      invariant LastSolid(code, offset, beforeEnd) == LastSolid(code, offset, end - 1)
    {
      beforeEnd := beforeEnd - 1;
    }
    slash := code[beforeEnd] == '/';
  }

  ghost function Extend(tokens: seq<Token>, t: Token): (r: seq<Token>)
    ensures r == tokens + [t]
    ensures OpenAfter(r)
         == (if t.Open? then OpenAfter(tokens) + [t.offset]
             else if t.Close? && OpenAfter(tokens) != [] then OpenAfter(tokens)[..|OpenAfter(tokens)| - 1]
             else OpenAfter(tokens))
    ensures IssuesAfter(r)
         == (if t.Unterminated? then IssuesAfter(tokens) + [Issue(UnclosedTag, t.offset)]
             else if t.Close? && OpenAfter(tokens) == [] then IssuesAfter(tokens) + [Issue(TagUnbalanced, t.offset)]
             else IssuesAfter(tokens))
  {
    var r := tokens + [t];
    assert r[..|r| - 1] == tokens;
    r
  }

  lemma PastEnd(code: string, tag: TagName, at: nat)
    requires at >= |code|
    ensures Tokens(code, tag, at) == []
  {}

  lemma TokenInRange(lower: string, tag: TagName, closing: bool, at: nat)
    requires MatchAt(lower, TokenText(tag, closing), at)
    ensures 0 < |TokenText(tag, closing)| && at + |TokenText(tag, closing)| <= |lower|
  {}

  lemma NothingScanned()
    ensures OpenAfter([]) == [] && IssuesAfter([]) == []
  {}

  lemma NotAStart(lower: string, tag: TagName, closing: bool, at: nat)
    requires var after := at + |TokenText(tag, closing)|; !(after < |lower| && IsBoundary(lower[after]))
    ensures !TagStarts(lower, tag, closing, at)
  {}

  lemma AStart(lower: string, tag: TagName, closing: bool, at: nat)
    requires MatchAt(lower, TokenText(tag, closing), at)
    requires var after := at + |TokenText(tag, closing)|; after < |lower| && IsBoundary(lower[after])
    ensures TagStarts(lower, tag, closing, at)
  {}

  // ----- Silence means balance -----

  /** Closes met while nothing was open. */
  function StrayCloses(tokens: seq<Token>): nat {
    if tokens == [] then 0
    else
      var before := tokens[..|tokens| - 1];
      StrayCloses(before) + (if tokens[|tokens| - 1].Close? && Depth(before) == 0 then 1 else 0)
  }

  function Depth(tokens: seq<Token>): nat {
    if tokens == [] then 0
    else
      var d := Depth(tokens[..|tokens| - 1]);
      match tokens[|tokens| - 1]
      case Open(_) => d + 1
      case Close(_) => if d == 0 then 0 else d - 1
      case _ => d
  }

  function CountCode(issues: seq<Issue>, code: IssueCode): nat {
    if issues == [] then 0
    else CountCode(issues[..|issues| - 1], code) + (if issues[|issues| - 1].code == code then 1 else 0)
  }

  lemma CountAppend(a: seq<Issue>, b: seq<Issue>, code: IssueCode)
    ensures CountCode(a + b, code) == CountCode(a, code) + CountCode(b, code)
  {
    if b == [] {
      assert a + b == a;
    } else {
      var n := |b| - 1;
      assert (a + b)[..|a + b| - 1] == a + b[..n];
      CountAppend(a, b[..n], code);
    }
  }

  lemma {:induction false} DepthIsStack(tokens: seq<Token>)
    ensures |OpenAfter(tokens)| == Depth(tokens)
  {
    if tokens != [] { DepthIsStack(tokens[..|tokens| - 1]); }
  }

  /** Every declaration is accounted for: what is left open is what was opened, less closes that matched. */
  lemma {:induction false} DeclarationsConserved(tokens: seq<Token>)
    ensures Depth(tokens) + Closes(tokens) == Opens(tokens) + StrayCloses(tokens)
  {
    if tokens != [] { DeclarationsConserved(tokens[..|tokens| - 1]); }
  }

  lemma {:induction false} CountUnbalanced(offsets: seq<nat>)
    ensures CountCode(Unbalanced(offsets), TagUnbalanced) == |offsets|
  {
    if offsets != [] {
      var n := |offsets| - 1;
      assert Unbalanced(offsets)[..n] == Unbalanced(offsets[..n]);
      CountUnbalanced(offsets[..n]);
    }
  }

  lemma {:induction false} CountStray(tokens: seq<Token>)
    ensures CountCode(IssuesAfter(tokens), TagUnbalanced) == StrayCloses(tokens)
  {
    if tokens != [] {
      var before := tokens[..|tokens| - 1];
      CountStray(before);
      DepthIsStack(before);
      var last := tokens[|tokens| - 1];
      var extra := if last.Close? then Issue(TagUnbalanced, last.offset) else Issue(UnclosedTag, last.offset);
      CountAppend(IssuesAfter(before), [extra], TagUnbalanced);
      assert [extra][..0] == [];
    }
  }

  /** The report counts exactly the closes met at depth zero and the declarations left open. */
  lemma UnbalancedCount(tokens: seq<Token>)
    ensures CountCode(Report(tokens), TagUnbalanced) == StrayCloses(tokens) + Depth(tokens)
  {
    CountAppend(IssuesAfter(tokens), Unbalanced(OpenAfter(tokens)), TagUnbalanced);
    CountStray(tokens);
    CountUnbalanced(OpenAfter(tokens));
    DepthIsStack(tokens);
  }

  lemma {:induction false} NoStrayIffPrefixesCovered(tokens: seq<Token>)
    ensures StrayCloses(tokens) == 0 <==>
            forall k :: 0 <= k <= |tokens| ==> Closes(tokens[..k]) <= Opens(tokens[..k])
  {
    if tokens != [] {
      var n := |tokens| - 1;
      NoStrayIffPrefixesCovered(tokens[..n]);
      assert forall k :: 0 <= k <= n ==> tokens[..n][..k] == tokens[..k];
      assert tokens[..n + 1] == tokens;
      DeclarationsConserved(tokens[..n]);
      DeclarationsConserved(tokens);
      if StrayCloses(tokens[..n]) == 0 && StrayCloses(tokens) != 0 {
        assert Closes(tokens[..n + 1]) > Opens(tokens[..n + 1]);
      }
    } else {
      assert forall k :: 0 <= k <= |tokens| ==> tokens[..k] == [];
    }
  }

  lemma {:induction false} NoIssueIff(tokens: seq<Token>)
    ensures IssuesAfter(tokens) == [] <==> Terminated(tokens) && StrayCloses(tokens) == 0
  {
    if tokens != [] {
      var n := |tokens| - 1;
      NoIssueIff(tokens[..n]);
      DepthIsStack(tokens[..n]);
      assert forall t :: t in tokens <==> t in tokens[..n] || t == tokens[n];
    }
  }

  /** The scanner stays silent exactly on streams that are terminated and balanced. */
  lemma SilentIffBalanced(tokens: seq<Token>)
    ensures Report(tokens) == [] <==> Terminated(tokens) && Balanced(tokens)
  {
    NoIssueIff(tokens);
    NoStrayIffPrefixesCovered(tokens);
    DepthIsStack(tokens);
    DeclarationsConserved(tokens);
    assert Report(tokens) == [] <==> IssuesAfter(tokens) == [] && OpenAfter(tokens) == [];
  }
}
