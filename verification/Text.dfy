/** Literal search in text, as `indexOf` performs it. */
module Text {
  import opened Prelude

  predicate MatchAt(text: string, needle: string, at: nat) {
    at + |needle| <= |text| && text[at..at + |needle|] == needle
  }

  /** The least match at or after `from`. */
  function IndexOf(text: string, needle: string, from: nat): (r: Option<nat>)
    requires needle != []
    ensures r.Some? ==> from <= r.value && MatchAt(text, needle, r.value)
    ensures r.Some? ==> forall p :: from <= p < r.value ==> !MatchAt(text, needle, p)
    ensures r.None? ==> forall p :: from <= p ==> !MatchAt(text, needle, p)
    decreases |text| - from
  {
    if from >= |text| then None
    else if MatchAt(text, needle, from) then Some(from)
    else IndexOf(text, needle, from + 1)
  }

  /** Replaces every match, left to right, without looking into what it wrote. */
  function ReplaceAll(text: string, needle: string, replacement: string): string
    requires needle != []
    decreases |text|
  {
    if text == [] then []
    else if MatchAt(text, needle, 0) then replacement + ReplaceAll(text[|needle|..], needle, replacement)
    else [text[0]] + ReplaceAll(text[1..], needle, replacement)
  }
}
