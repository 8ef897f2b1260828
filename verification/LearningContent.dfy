/** The states a learning run edits, the one bounded change it makes, and the check of what came back. */
module LearningContent {
  import opened Prelude
  import opened Text

  datatype Value = Words(text: string) | Number(n: int) | Flag(b: bool) | Opaque(id: nat)

  type Fields = map<string, Value>

  /** What the state hash covers, for each of the four adapters. */
  datatype Content =
    | StandardContent(recordType: string, recordCode: string, record: Fields)
    | T123Content(code: string)
    | ZeroContent(elements: seq<Fields>, metadata: nat)
    | PageContent(fields: seq<(string, string)>, published: bool)

  datatype Operation = Standard | T123 | Zero(elementId: string) | PageSeo

  /** The marker text and the number from 1 to 9 that are both derived from the baseline hash. */
  datatype Marker = Marker(text: string, delta: nat)

  predicate MarkerValid(m: Marker) {
    m.text != [] && 1 <= m.delta <= 9
  }

  const META := "meta_descr"

  predicate Includes(text: string, needle: string) {
    exists at :: 0 <= at <= |text| && MatchAt(text, needle, at)
  }

  // ----- Finding what to edit -----

  predicate IsElement(c: Content, elementId: string, k: int) {
    && c.ZeroContent? && 0 <= k < |c.elements|
    && "elem_id" in c.elements[k] && c.elements[k]["elem_id"] == Words(elementId)
  }

  predicate SoleElement(c: Content, elementId: string, k: int) {
    && IsElement(c, elementId, k)
    && forall j :: 0 <= j < |c.elements| && IsElement(c, elementId, j) ==> j == k
  }

  /** The position of the one element with this id; a missing or repeated id is refused. */
  function ElementAt(c: Content, elementId: string): (k: Option<nat>)
    requires c.ZeroContent?
    ensures k.Some? ==> SoleElement(c, elementId, k.value)
    ensures k.None? ==> forall j :: !SoleElement(c, elementId, j)
  {
    if exists k :: 0 <= k < |c.elements| && SoleElement(c, elementId, k) then
      var k :| 0 <= k < |c.elements| && SoleElement(c, elementId, k); Some(k)
    else None
  }

  predicate SoleMeta(fields: seq<(string, string)>, k: int) {
    && 0 <= k < |fields| && fields[k].0 == META
    && forall j :: 0 <= j < |fields| && fields[j].0 == META ==> j == k
  }

  function MetaAt(fields: seq<(string, string)>): (k: Option<nat>)
    ensures k.Some? ==> SoleMeta(fields, k.value)
    ensures k.None? ==> forall j :: !SoleMeta(fields, j)
  {
    if exists k :: 0 <= k < |fields| && SoleMeta(fields, k) then
      var k :| 0 <= k < |fields| && SoleMeta(fields, k); Some(k)
    else None
  }

  predicate Fits(op: Operation, c: Content) {
    match op
    case Standard => c.StandardContent?
    case T123 => c.T123Content?
    case Zero(_) => c.ZeroContent?
    case PageSeo => c.PageContent?
  }

  // ----- The intended change -----

  function Marked(code: string, marker: Marker): string {
    code + "\n<!-- tilda-copy-test:" + marker.text + " -->"
  }

  function NextValue(v: Value, marker: Marker): Option<Value> {
    match v
    case Words(text) => if Includes(text, marker.text) then None else Some(Words(text + marker.text))
    case Flag(b) => Some(Flag(!b))
    case Number(n) => Some(Number(n + marker.delta))
    case Opaque(_) => None
  }

  /** The state one test mutation aims at; nothing when the marker is already there or the field cannot take it. */
  function Intended(op: Operation, c: Content, field: string, marker: Marker): Option<Content>
    requires Fits(op, c)
  {
    match op
    case Standard =>
      if field in c.record && c.record[field].Words? && !Includes(c.record[field].text, marker.text) then
        Some(c.(record := c.record[field := Words(c.record[field].text + marker.text)]))
      else None
    case T123 =>
      if Includes(c.code, marker.text) then None else Some(T123Content(Marked(c.code, marker)))
    case Zero(elementId) =>
      var k := ElementAt(c, elementId);
      if k.None? || field !in c.elements[k.value] then None
      else
        var next := NextValue(c.elements[k.value][field], marker);
        if next.None? then None
        else Some(c.(elements := c.elements[k.value := c.elements[k.value][field := next.value]]))
    case PageSeo =>
      var k := MetaAt(c.fields);
      if k.None? || Includes(c.fields[k.value].1, marker.text) then None
      else Some(c.(fields := c.fields[k.value := (c.fields[k.value].0, c.fields[k.value].1 + marker.text)]))
  }

  // ----- Checking what came back -----

  /** What a reread must look like next to the state before the write, apart from its hash. */
  predicate DeltaAccepted(op: Operation, c: Content, after: Content, field: string, marker: Marker)
    requires Fits(op, c) && Fits(op, after)
  {
    match op
    case Standard =>
      && c.recordType == after.recordType && c.recordCode == after.recordCode
      && c.record - {field} == after.record - {field}
      && Lookup(c.record, field) != Lookup(after.record, field)
    case T123 => after.code != c.code && Includes(after.code, marker.text)
    case Zero(elementId) =>
      var k := ElementAt(c, elementId);
      var j := ElementAt(after, elementId);
      && k.Some? && j.Some?
      && c.elements[k.value := c.elements[k.value] - {field}] == after.elements[j.value := after.elements[j.value] - {field}]
      && c.metadata == after.metadata
      && Lookup(c.elements[k.value], field) != Lookup(after.elements[j.value], field)
    case PageSeo =>
      var k := MetaAt(c.fields);
      var j := MetaAt(after.fields);
      && WithoutMeta(c.fields) == WithoutMeta(after.fields)
      && k.Some? && j.Some? && c.fields[k.value].1 != after.fields[j.value].1
  }

  function Lookup(fields: Fields, field: string): Option<Value> {
    if field in fields then Some(fields[field]) else None
  }

  function WithoutMeta(fields: seq<(string, string)>): seq<(string, string)> {
    if fields == [] then []
    else (if fields[0].0 == META then [] else [fields[0]]) + WithoutMeta(fields[1..])
  }

  // ----- What a write does -----

  /** What an obedient target holds after the fixed adapter wrote a snapshot to it. */
  function Written(op: Operation, held: Content, snapshot: Content, field: string): Content
    requires Fits(op, held) && Fits(op, snapshot)
    requires op.Standard? ==> field in snapshot.record
  {
    match op
    case Standard => held.(record := held.record[field := snapshot.record[field]])
    case T123 => T123Content(snapshot.code)
    case Zero(_) => snapshot
    case PageSeo => held.(fields := snapshot.fields)
  }

  // ----- Properties -----

  lemma AppendDiffers(text: string, more: string)
    requires more != []
    ensures text + more != text
  {
    assert |text + more| > |text|;
  }

  lemma MarkedIncludes(code: string, marker: Marker)
    ensures Includes(Marked(code, marker), marker.text)
  {
    var lead := code + "\n<!-- tilda-copy-test:";
    var text := Marked(code, marker);
    assert text == lead + (marker.text + " -->");
    assert text[|lead|..|lead| + |marker.text|] == marker.text;
    assert MatchAt(text, marker.text, |lead|);
  }

  lemma WithoutMetaSame(a: seq<(string, string)>, b: seq<(string, string)>)
    requires |a| == |b|
    requires forall k :: 0 <= k < |a| ==> a[k].0 == b[k].0 && (a[k].0 != META ==> a[k] == b[k])
    ensures WithoutMeta(a) == WithoutMeta(b)
  {
    if a != [] {
      WithoutMetaSame(a[1..], b[1..]);
    }
  }

  /** The intended state differs from the one it was computed from. */
  lemma IntendedDiffers(op: Operation, c: Content, field: string, marker: Marker)
    requires Fits(op, c) && MarkerValid(marker) && Intended(op, c, field, marker).Some?
    ensures Fits(op, Intended(op, c, field, marker).value)
    ensures Intended(op, c, field, marker).value != c
  {
    hide Includes;
    var next := Intended(op, c, field, marker).value;
    match op
    case Standard =>
      AppendDiffers(c.record[field].text, marker.text);
      assert next.record[field] != c.record[field];
    case T123 => assert |next.code| > |c.code|;
    case Zero(elementId) =>
      var k := ElementAt(c, elementId).value;
      NextDiffers(c.elements[k][field], marker);
      assert next.elements[k][field] != c.elements[k][field];
    case PageSeo =>
      var k := MetaAt(c.fields).value;
      AppendDiffers(c.fields[k].1, marker.text);
      assert next.fields[k] != c.fields[k];
  }

  lemma NextDiffers(v: Value, marker: Marker)
    requires MarkerValid(marker) && NextValue(v, marker).Some?
    ensures NextValue(v, marker).value != v
  {
    hide Includes;
    if v.Words? { AppendDiffers(v.text, marker.text); }
  }

  lemma SameElement(c: Content, next: Content, elementId: string, k: nat)
    requires c.ZeroContent? && next.ZeroContent? && |c.elements| == |next.elements|
    requires SoleElement(c, elementId, k)
    requires forall j :: 0 <= j < |c.elements| ==> IsElement(c, elementId, j) == IsElement(next, elementId, j)
    ensures ElementAt(next, elementId) == Some(k)
  {
    assert SoleElement(next, elementId, k);
  }

  /** A value after its one bounded change: the marker is appended, a number grows by the marker's digit, a flag flips. */
  predicate Bumped(v: Value, next: Value, marker: Marker) {
    match v
    case Words(text) => next == Words(text + marker.text) && !Includes(text, marker.text)
    case Number(n) => next == Number(n + marker.delta)
    case Flag(b) => next == Flag(!b)
    case Opaque(_) => false
  }

  /** Whether a value can take its change. */
  predicate Takes(v: Value, marker: Marker) {
    match v
    case Words(text) => !Includes(text, marker.text)
    case Opaque(_) => false
    case _ => true
  }

  /** `next` is there exactly when the chosen value of `c` can take its change, and is that change of that value alone. */
  ghost predicate OneChange(op: Operation, c: Content, field: string, marker: Marker, next: Option<Content>)
    requires Fits(op, c) && (next.Some? ==> Fits(op, next.value))
  {
    match op
    case Standard =>
      && (next.Some? <==> field in c.record && c.record[field].Words? && Takes(c.record[field], marker))
      && (next.Some? ==> next.value.recordType == c.recordType && next.value.recordCode == c.recordCode
                         && next.value.record.Keys == c.record.Keys && Bumped(c.record[field], next.value.record[field], marker)
                         && forall f :: f in c.record && f != field ==> next.value.record[f] == c.record[f])
    case T123 =>
      && (next.Some? <==> !Includes(c.code, marker.text))
      && (next.Some? ==> c.code <= next.value.code
                         && next.value.code[|c.code|..] == "\n<!-- tilda-copy-test:" + marker.text + " -->")
    case Zero(elementId) =>
      var k := ElementAt(c, elementId);
      && (next.Some? <==> k.Some? && field in c.elements[k.value] && Takes(c.elements[k.value][field], marker))
      && (next.Some? ==> |next.value.elements| == |c.elements| && next.value.metadata == c.metadata
                         && (forall j :: 0 <= j < |c.elements| && j != k.value ==> next.value.elements[j] == c.elements[j])
                         && next.value.elements[k.value].Keys == c.elements[k.value].Keys
                         && Bumped(c.elements[k.value][field], next.value.elements[k.value][field], marker)
                         && forall f :: f in c.elements[k.value] && f != field ==>
                                          next.value.elements[k.value][f] == c.elements[k.value][f])
    case PageSeo =>
      var k := MetaAt(c.fields);
      && (next.Some? <==> k.Some? && !Includes(c.fields[k.value].1, marker.text))
      && (next.Some? ==> |next.value.fields| == |c.fields| && next.value.published == c.published
                         && (forall j :: 0 <= j < |c.fields| && j != k.value ==> next.value.fields[j] == c.fields[j])
                         && next.value.fields[k.value] == (c.fields[k.value].0, c.fields[k.value].1 + marker.text))
  }

  /** The intended state is that one change, whenever there can be one. */
  lemma IntendedIsOneChange(op: Operation, c: Content, field: string, marker: Marker)
    requires Fits(op, c)
    ensures Intended(op, c, field, marker).Some? ==> Fits(op, Intended(op, c, field, marker).value)
    ensures OneChange(op, c, field, marker, Intended(op, c, field, marker))
  {
    hide Includes;
  }

  /** The readback check never rejects a write that landed exactly as intended (the element's own id is not a writable field). */
  lemma IntendedIsAccepted(op: Operation, c: Content, field: string, marker: Marker)
    requires Fits(op, c) && MarkerValid(marker) && Intended(op, c, field, marker).Some?
    requires op.Zero? ==> field != "elem_id"
    ensures Fits(op, Intended(op, c, field, marker).value)
    ensures DeltaAccepted(op, c, Intended(op, c, field, marker).value, field, marker)
  {
    hide Includes;
    IntendedDiffers(op, c, field, marker);
    var next := Intended(op, c, field, marker).value;
    match op
    case Standard =>
      AppendDiffers(c.record[field].text, marker.text);
    case T123 =>
      MarkedIncludes(c.code, marker);
    case Zero(elementId) =>
      ZeroIsAccepted(c, elementId, field, marker);
    case PageSeo =>
      MetaIsAccepted(c, marker);
  }

  lemma ZeroIsAccepted(c: Content, elementId: string, field: string, marker: Marker)
    requires c.ZeroContent? && MarkerValid(marker) && field != "elem_id"
    requires Intended(Zero(elementId), c, field, marker).Some?
    ensures DeltaAccepted(Zero(elementId), c, Intended(Zero(elementId), c, field, marker).value, field, marker)
  {
    hide Includes;
    var next := Intended(Zero(elementId), c, field, marker).value;
    var k := ElementAt(c, elementId).value;
    NextDiffers(c.elements[k][field], marker);
    SameElement(c, next, elementId, k);
    assert c.elements[k] - {field} == next.elements[k] - {field};
    assert c.elements[k := c.elements[k] - {field}] == next.elements[k := next.elements[k] - {field}];
  }

  lemma MetaIsAccepted(c: Content, marker: Marker)
    requires c.PageContent? && MarkerValid(marker) && Intended(PageSeo, c, META, marker).Some?
    ensures DeltaAccepted(PageSeo, c, Intended(PageSeo, c, META, marker).value, META, marker)
  {
    hide Includes;
    var next := Intended(PageSeo, c, META, marker).value;
    var k := MetaAt(c.fields).value;
    AppendDiffers(c.fields[k].1, marker.text);
    assert forall j :: 0 <= j < |c.fields| ==> c.fields[j].0 == next.fields[j].0;
    assert SoleMeta(next.fields, k);
    WithoutMetaSame(c.fields, next.fields);
  }

  /** An obedient target holds the intended state after the test write, and the exact baseline after the restore. */
  lemma WritesAreExact(op: Operation, c: Content, field: string, marker: Marker)
    requires Fits(op, c) && MarkerValid(marker) && Intended(op, c, field, marker).Some?
    ensures var next := Intended(op, c, field, marker).value;
            && Fits(op, next)
            && (op.Standard? ==> field in c.record && field in next.record)
            && Written(op, c, next, field) == next
            && Written(op, next, c, field) == c
  {
    hide Includes;
    IntendedDiffers(op, c, field, marker);
    if op.Standard? {
      var next := Intended(op, c, field, marker).value;
      assert next.record[field := c.record[field]] == c.record;
    }
  }
}
