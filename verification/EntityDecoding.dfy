/**
 Decoding of the five HTML entities in a T123 read. The program runs five global
 replacements one after the other, `&amp;` last; here they are proved equal to one
 left-to-right pass that decodes each entity once, and inverse to escaping.
 */
module EntityDecoding {
  import opened Text

  datatype Entity = Lt | Gt | Quot | Apos | Amp

  function EntityText(e: Entity): (text: string)
    ensures |text| >= 4 && text[0] == '&'
  {
    match e
    case Lt => "&lt;"
    case Gt => "&gt;"
    case Quot => "&quot;"
    case Apos => "&#039;"
    case Amp => "&amp;"
  }

  function Decoded(e: Entity): char {
    match e
    case Lt => '<'
    case Gt => '>'
    case Quot => '"'
    case Apos => '\''
    case Amp => '&'
  }

  function Replace(text: string, e: Entity): string {
    ReplaceAll(text, EntityText(e), [Decoded(e)])
  }

  /** The program's chain of replacements. */
  function DecodeOnce(value: string): string {
    Replace(Replace(Replace(Replace(Replace(value, Lt), Gt), Quot), Apos), Amp)
  }

  predicate EntityAt(text: string, e: Entity) { MatchAt(text, EntityText(e), 0) }

  /** One pass: decode an enabled entity where it stands, copy everything else. */
  function OnePass(text: string, enabled: set<Entity>): string
    decreases |text|
  {
    if text == [] then []
    else if Lt in enabled && EntityAt(text, Lt) then [Decoded(Lt)] + OnePass(text[4..], enabled)
    else if Gt in enabled && EntityAt(text, Gt) then [Decoded(Gt)] + OnePass(text[4..], enabled)
    else if Quot in enabled && EntityAt(text, Quot) then [Decoded(Quot)] + OnePass(text[6..], enabled)
    else if Apos in enabled && EntityAt(text, Apos) then [Decoded(Apos)] + OnePass(text[6..], enabled)
    else if Amp in enabled && EntityAt(text, Amp) then [Decoded(Amp)] + OnePass(text[5..], enabled)
    else [text[0]] + OnePass(text[1..], enabled)
  }

  predicate SomeEntityAt(text: string, enabled: set<Entity>) {
    exists e <- enabled :: EntityAt(text, e)
  }

  /** At most one entity stands at a position: they differ in their second or third character. */
  lemma OneEntityAt(text: string, a: Entity, b: Entity)
    requires EntityAt(text, a) && EntityAt(text, b)
    ensures a == b
  {
    var ta, tb := EntityText(a), EntityText(b);
    assert ta[1] == text[..|ta|][1] == text[1] == text[..|tb|][1] == tb[1];
  }

  lemma PassDecodes(text: string, enabled: set<Entity>, e: Entity)
    requires e in enabled && EntityAt(text, e)
    ensures |EntityText(e)| <= |text|
    ensures OnePass(text, enabled) == [Decoded(e)] + OnePass(text[|EntityText(e)|..], enabled)
  {
    forall o | EntityAt(text, o) ensures o == e { OneEntityAt(text, o, e); }
    hide EntityAt;
  }

  lemma PassCopies(text: string, enabled: set<Entity>)
    requires text != [] && !SomeEntityAt(text, enabled)
    ensures OnePass(text, enabled) == [text[0]] + OnePass(text[1..], enabled)
  {}

  /** Text that holds no ampersand and none of the four characters written before `&amp;` is decoded. */
  predicate Inert(part: string) {
    forall c <- part :: c != '&' && c != '<' && c != '>' && c != '"' && c != '\''
  }

  lemma EntityTailInert(e: Entity)
    ensures Inert(EntityText(e)[1..])
  {
    var t := EntityText(e)[1..];
    forall c <- t ensures c != '&' && c != '<' && c != '>' && c != '"' && c != '\'' {
      var k :| 0 <= k < |t| && t[k] == c;
      assert k == 0 || k == 1 || k == 2 || k == 3 || k == 4;
    }
  }

  /** Decoding neither creates nor destroys inert text at the front. */
  lemma {:induction false} InertPrefixKept(text: string, enabled: set<Entity>, part: string)
    requires Inert(part) && Amp !in enabled
    ensures part <= OnePass(text, enabled) <==> part <= text
    ensures part <= text ==> OnePass(text, enabled)[|part|..] == OnePass(text[|part|..], enabled)
    decreases |text|
  {
    hide OnePass, EntityAt;
    if part == [] {
      assert text[0..] == text;
    } else if text == [] {
      PassOfNothing(enabled);
    } else {
      assert part[0] in part;
      if e :| e in enabled && EntityAt(text, e) {
        PassDecodes(text, enabled, e);
        EntitySplit(text, e);
      } else {
        PassCopies(text, enabled);
        assert forall c <- part[1..] :: c in part;
        InertPrefixKept(text[1..], enabled, part[1..]);
        PrefixBySteps(part, text);
        PrefixBySteps(part, OnePass(text, enabled));
      }
    }
  }

  lemma PrefixBySteps(part: string, text: string)
    requires part != [] && text != []
    ensures part <= text <==> part[0] == text[0] && part[1..] <= text[1..]
    ensures part <= text ==> text[1..][|part| - 1..] == text[|part|..]
  {
    assert part == [part[0]] + part[1..] && text == [text[0]] + text[1..];
  }

  lemma PassOfNothing(enabled: set<Entity>)
    ensures OnePass([], enabled) == []
  {}

  lemma EntitySplit(text: string, e: Entity)
    ensures EntityAt(text, e) <==> text != [] && text[0] == '&' && EntityText(e)[1..] <= text[1..]
  {
    var needle := EntityText(e);
    assert needle == ['&'] + needle[1..];
    if text != [] {
      assert text == [text[0]] + text[1..];
    }
  }

  /** One more replacement enables one more entity of the single pass. */
  lemma {:induction false} ReplaceExtendsPass(text: string, enabled: set<Entity>, e: Entity)
    requires Amp !in enabled && e !in enabled
    ensures Replace(OnePass(text, enabled), e) == OnePass(text, enabled + {e})
    decreases |text|
  {
    hide OnePass, EntityAt, Replace;
    if text == [] {
      PassOfNothing(enabled);
      PassOfNothing(enabled + {e});
      ReplaceInNothing(e);
    } else {
      if o :| o in enabled && EntityAt(text, o) {
        PassDecodes(text, enabled, o);
        PassDecodes(text, enabled + {e}, o);
        var rest := OnePass(text[|EntityText(o)|..], enabled);
        ReplaceExtendsPass(text[|EntityText(o)|..], enabled, e);
        EntitySplit([Decoded(o)] + rest, e);
        ReplaceCopies(Decoded(o), rest, e);
      } else if EntityAt(text, e) {
        ReplaceExtendsAtEntity(text, enabled, e);
      } else {
        ReplaceExtendsAtCopy(text, enabled, e);
      }
    }
  }

  lemma ReplaceInNothing(e: Entity)
    ensures Replace([], e) == []
  {}

  lemma ReplaceCopies(c: char, rest: string, e: Entity)
    requires !EntityAt([c] + rest, e)
    ensures Replace([c] + rest, e) == [c] + Replace(rest, e)
  {
    assert ([c] + rest)[1..] == rest;
  }

  lemma {:induction false} ReplaceExtendsAtEntity(text: string, enabled: set<Entity>, e: Entity)
    requires Amp !in enabled && e !in enabled && EntityAt(text, e)
    requires !SomeEntityAt(text, enabled)
    ensures Replace(OnePass(text, enabled), e) == OnePass(text, enabled + {e})
    decreases |text|, 0
  {
    var needle := EntityText(e);
    var tail := needle[1..];
    EntitySplit(text, e);
    EntityTailInert(e);
    InertPrefixKept(text[1..], enabled, tail);
    PassCopies(text, enabled);
    PassDecodes(text, enabled + {e}, e);
    hide OnePass;
    var out := OnePass(text, enabled);
    assert out[1..] == OnePass(text[1..], enabled);
    EntitySplit(out, e);
    assert text[1..][|tail|..] == text[|needle|..];
    assert out[1..][|tail|..] == out[|needle|..];
    hide EntityAt;
    ReplaceExtendsPass(text[|needle|..], enabled, e);
    ReplaceDecodes(out, e);
  }

  lemma ReplaceDecodes(text: string, e: Entity)
    requires EntityAt(text, e)
    ensures |EntityText(e)| <= |text|
    ensures Replace(text, e) == [Decoded(e)] + Replace(text[|EntityText(e)|..], e)
  {}

  lemma {:induction false} ReplaceExtendsAtCopy(text: string, enabled: set<Entity>, e: Entity)
    requires Amp !in enabled && e !in enabled && text != [] && !EntityAt(text, e)
    requires !SomeEntityAt(text, enabled)
    ensures Replace(OnePass(text, enabled), e) == OnePass(text, enabled + {e})
    decreases |text|, 0
  {
    EntitySplit(text, e);
    EntityTailInert(e);
    InertPrefixKept(text[1..], enabled, EntityText(e)[1..]);
    PassCopies(text, enabled);
    assert !SomeEntityAt(text, enabled + {e});
    PassCopies(text, enabled + {e});
    hide OnePass;
    var out := OnePass(text, enabled);
    assert out[1..] == OnePass(text[1..], enabled);
    EntitySplit(out, e);
    hide EntityAt;
    ReplaceExtendsPass(text[1..], enabled, e);
    ReplaceCopies(text[0], OnePass(text[1..], enabled), e);
  }

  lemma {:induction false} EmptyPassCopies(text: string)
    ensures OnePass(text, {}) == text
    decreases |text|
  {
    if text != [] {
      EmptyPassCopies(text[1..]);
      PassCopies(text, {});
    }
  }

  /** The chain of five replacements is a single pass over the original text. */
  lemma DecodeIsOnePass(value: string)
    ensures DecodeOnce(value) == OnePass(value, {Lt, Gt, Quot, Apos, Amp})
  {
    EmptyPassCopies(value);
    hide OnePass, Replace;
    ReplaceExtendsPass(value, {}, Lt);
    ReplaceExtendsPass(value, {} + {Lt}, Gt);
    ReplaceExtendsPass(value, {} + {Lt} + {Gt}, Quot);
    ReplaceExtendsPass(value, {} + {Lt} + {Gt} + {Quot}, Apos);
    ReplaceExtendsPass(value, {} + {Lt} + {Gt} + {Quot} + {Apos}, Amp);
    assert {} + {Lt} + {Gt} + {Quot} + {Apos} + {Amp} == {Lt, Gt, Quot, Apos, Amp};
  }

  // ----- Escaping -----

  function EscapeChar(c: char): string {
    if c == '&' then EntityText(Amp)
    else if c == '<' then EntityText(Lt)
    else if c == '>' then EntityText(Gt)
    else if c == '"' then EntityText(Quot)
    else if c == '\'' then EntityText(Apos)
    else [c]
  }

  function Escape(text: string): string {
    if text == [] then [] else EscapeChar(text[0]) + Escape(text[1..])
  }

  lemma EntityInFront(e: Entity, rest: string)
    ensures EntityAt(EntityText(e) + rest, e)
    ensures (EntityText(e) + rest)[|EntityText(e)|..] == rest
  {}

  lemma NoEntityInFront(c: char, rest: string, enabled: set<Entity>)
    requires c != '&'
    ensures !SomeEntityAt([c] + rest, enabled)
  {
    forall e <- enabled ensures !EntityAt([c] + rest, e) { EntitySplit([c] + rest, e); }
  }

  /** Decoding undoes escaping exactly once, for every text, whatever entities the text itself spells. */
  lemma {:induction false} DecodeInvertsEscape(text: string)
    ensures DecodeOnce(Escape(text)) == text
  {
    DecodeIsOnePass(Escape(text));
    PassInvertsEscape(text);
    hide *;
  }

  lemma {:induction false} PassInvertsEscape(text: string)
    ensures OnePass(Escape(text), {Lt, Gt, Quot, Apos, Amp}) == text
    decreases |text|
  {
    if text != [] {
      hide OnePass, EntityAt, SomeEntityAt;
      var all := {Lt, Gt, Quot, Apos, Amp};
      var rest := Escape(text[1..]);
      PassInvertsEscape(text[1..]);
      if text[0] in {'&', '<', '>', '"', '\''} {
        var e := if text[0] == '&' then Amp else if text[0] == '<' then Lt else if text[0] == '>' then Gt
                 else if text[0] == '"' then Quot else Apos;
        EntityInFront(e, rest);
        PassDecodes(EntityText(e) + rest, all, e);
      } else {
        NoEntityInFront(text[0], rest, all);
        PassCopies([text[0]] + rest, all);
        assert ([text[0]] + rest)[1..] == rest;
      }
    } else {
      PassOfNothing({Lt, Gt, Quot, Apos, Amp});
    }
  }
}
