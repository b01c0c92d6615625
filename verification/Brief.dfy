/** Briefs: the two readers that cut a packet's section and the hard rules out of a document
    (src/inference_grid/lanes/brief.py), and the two printers that put such a document together
    (src/inference_grid/board/from_brief.py, src/inference_grid/board/plan_task.py). */
module Brief {
  import opened Wrappers
  import opened Text

  const RulesHeading := "## 1. Hard rules"
  const RulesEnd := "\n---"
  const Phase := "\n## "
  const Closing := "\n\n---\n\n"

  // ----- Packet headings: `^#### ([A-Z]\d+)\. (.+)$` on a line of its own -----------------

  predicate LineStart(s: string, p: nat) {
    p == 0 || (p <= |s| && s[p - 1] == '\n')
  }

  /** How many digits there are from `p` on. */
  function Digits(s: string, p: nat): (n: nat)
    ensures n > 0 ==> p + n <= |s|
    ensures forall k :: p <= k < p + n && k < |s| ==> Digit(s[k])
    ensures p + n < |s| ==> !Digit(s[p + n])
    decreases |s| - p
  {
    if p < |s| && Digit(s[p]) then 1 + Digits(s, p + 1) else 0
  }

  predicate Marked(s: string, p: nat) {
    && p + 6 <= |s|
    && s[p] == '#' && s[p + 1] == '#' && s[p + 2] == '#' && s[p + 3] == '#' && s[p + 4] == ' '
    && 'A' <= s[p + 5] <= 'Z'
  }

  /** Where the title starts, if there is one. */
  function TitleAt(s: string, p: nat): nat {
    p + 6 + Digits(s, p + 6) + 2
  }

  predicate HeadingAt(s: string, p: nat) {
    && LineStart(s, p) && Marked(s, p)
    && Digits(s, p + 6) >= 1
    && TitleAt(s, p) < |s| && s[TitleAt(s, p) - 2] == '.' && s[TitleAt(s, p) - 1] == ' ' && s[TitleAt(s, p)] != '\n'
  }

  function IdAt(s: string, p: nat): string
    requires HeadingAt(s, p)
  {
    s[p + 5..TitleAt(s, p) - 2]
  }

  predicate HeadingOf(s: string, p: nat, id: string) {
    HeadingAt(s, p) && IdAt(s, p) == id
  }

  function LineEnd(s: string, p: nat): (e: nat)
    requires p <= |s|
    ensures p <= e <= |s| && (forall k :: p <= k < e ==> s[k] != '\n')
    ensures e < |s| ==> s[e] == '\n'
    decreases |s| - p
  {
    if p == |s| || s[p] == '\n' then p else LineEnd(s, p + 1)
  }

  function NextHeading(s: string, from: nat): (r: Option<nat>)
    ensures r.Some? ==> from <= r.value < |s| && HeadingAt(s, r.value)
    ensures r.Some? ==> forall q :: from <= q < r.value ==> !HeadingAt(s, q)
    ensures r.None? ==> forall q :: from <= q ==> !HeadingAt(s, q)
    decreases |s| - from
  {
    if from >= |s| then None else if HeadingAt(s, from) then Some(from) else NextHeading(s, from + 1)
  }

  function FirstHeading(s: string, id: string, from: nat): (r: Option<nat>)
    ensures r.Some? ==> from <= r.value < |s| && HeadingOf(s, r.value, id)
    ensures r.Some? ==> forall q :: from <= q < r.value ==> !HeadingOf(s, q, id)
    ensures r.None? ==> forall q :: from <= q ==> !HeadingOf(s, q, id)
    decreases |s| - from
  {
    if from >= |s| then None else if HeadingOf(s, from, id) then Some(from) else FirstHeading(s, id, from + 1)
  }

  // ----- packet_text ---------------------------------------------------------------------

  /** The section runs to the next packet heading, or to a phase heading before it. */
  function SectionEnd(s: string, p: nat): nat
    requires p <= |s|
  {
    var next := NextHeading(s, p + 1);
    var end := if next.Some? then next.value else |s|;
    var phase := Find(s, Phase, LineEnd(s, p));
    if phase.Some? && phase.value < end then phase.value else end
  }

  lemma SectionEndBounds(s: string, p: nat)
    requires p < |s|
    ensures p <= SectionEnd(s, p) <= |s|
    ensures forall q :: p < q < SectionEnd(s, p) ==> !HeadingAt(s, q)
    ensures forall q :: LineEnd(s, p) <= q < SectionEnd(s, p) ==> !OccursAt(s, Phase, q)
  {
  }

  /** None is the KeyError of a packet that is not in the brief. */
  function PacketText(brief: string, id: string): Option<string> {
    match FirstHeading(brief, id, 0)
    case None => None
    case Some(p) =>
      SectionEndBounds(brief, p);
      Some(RStrip(brief[p..SectionEnd(brief, p)]) + "\n")
  }

  /** All headings in their order. */
  method FindHeadings(s: string) returns (at: seq<nat>)
    ensures AreHeadings(s, at)
    ensures forall p: nat :: HeadingAt(s, p) ==> p in at
    ensures forall j, k :: 0 <= j < k < |at| ==> at[j] < at[k]
  {
    at := [];
    for p := 0 to |s|
      invariant forall k :: 0 <= k < |at| ==> at[k] < p && HeadingAt(s, at[k])
      invariant forall q: nat :: q < p && HeadingAt(s, q) ==> q in at
      invariant forall j, k :: 0 <= j < k < |at| ==> at[j] < at[k]
    {
      if HeadingAt(s, p) {
        at := at + [p];
      }
    }
  }

  method CutPacket(brief: string, id: string) returns (section: Option<string>)
    ensures section == PacketText(brief, id)
  {
    var at := FindHeadings(brief);
    for i := 0 to |at|
      invariant NotAmong(brief, at, i, id)
    {
      if IdAt(brief, at[i]) == id {
        section := CutAt(brief, at, i, id);
        return;
      }
      NotAmongGrows(brief, at, i, id);
    }
    NoneOfList(brief, at, id);
    return None;
  }

  /** The cut at the i-th heading: to the next heading, or to a phase before it. */
  method CutAt(brief: string, at: seq<nat>, i: nat, id: string) returns (section: Option<string>)
    requires AreHeadings(brief, at) && (forall p: nat :: HeadingAt(brief, p) ==> p in at)
    requires forall j, k :: 0 <= j < k < |at| ==> at[j] < at[k]
    requires i < |at| && HeadingOf(brief, at[i], id) && NotAmong(brief, at, i, id)
    ensures section == PacketText(brief, id)
  {
    var end := if i + 1 < |at| then at[i + 1] else |brief|;
    var phase := Find(brief, Phase, LineEnd(brief, at[i]));
    if phase.Some? && phase.value < end {
      end := phase.value;
    }
    CutIsSection(brief, at, i, id);
    return Some(RStrip(brief[at[i]..end]) + "\n");
  }

  lemma NotAmongGrows(s: string, at: seq<nat>, n: nat, id: string)
    requires NotAmong(s, at, n, id) && n < |at| && !HeadingOf(s, at[n], id)
    ensures NotAmong(s, at, n + 1, id)
  {
  }

  predicate AreHeadings(s: string, at: seq<nat>) {
    forall k :: 0 <= k < |at| ==> at[k] < |s| && HeadingAt(s, at[k])
  }

  predicate NotAmong(s: string, at: seq<nat>, n: nat, id: string) {
    forall k :: 0 <= k < n && k < |at| ==> !HeadingOf(s, at[k], id)
  }

  lemma NoneOfList(s: string, at: seq<nat>, id: string)
    requires (forall p: nat :: HeadingAt(s, p) ==> p in at) && NotAmong(s, at, |at|, id)
    ensures PacketText(s, id) == None
  {
    forall q: nat ensures !HeadingOf(s, q, id) {
      assert HeadingAt(s, q) ==> q in at;
    }
  }

  /** The end that is found from the list of headings is the section's. */
  lemma CutIsSection(s: string, at: seq<nat>, i: nat, id: string)
    requires AreHeadings(s, at) && (forall p: nat :: HeadingAt(s, p) ==> p in at)
    requires forall j, k :: 0 <= j < k < |at| ==> at[j] < at[k]
    requires i < |at| && HeadingOf(s, at[i], id) && NotAmong(s, at, i, id)
    ensures var end := if i + 1 < |at| then at[i + 1] else |s|;
            var phase := Find(s, Phase, LineEnd(s, at[i]));
            && SectionEnd(s, at[i]) == (if phase.Some? && phase.value < end then phase.value else end)
            && at[i] <= SectionEnd(s, at[i]) <= |s|
            && PacketText(s, id) == Some(RStrip(s[at[i]..SectionEnd(s, at[i])]) + "\n")
  {
    FirstOfList(s, at, i, id);
    SectionEndBounds(s, at[i]);
  }

  lemma FirstOfList(s: string, at: seq<nat>, i: nat, id: string)
    requires AreHeadings(s, at) && (forall p: nat :: HeadingAt(s, p) ==> p in at)
    requires forall j, k :: 0 <= j < k < |at| ==> at[j] < at[k]
    requires i < |at| && HeadingOf(s, at[i], id) && NotAmong(s, at, i, id)
    ensures FirstHeading(s, id, 0) == Some(at[i])
    ensures NextHeading(s, at[i] + 1) == if i + 1 < |at| then Some(at[i + 1]) else None
  {
    assert FirstHeading(s, id, 0).value in at;
    NextOfList(s, at, i);
  }

  lemma NextOfList(s: string, at: seq<nat>, i: nat)
    requires AreHeadings(s, at) && (forall p: nat :: HeadingAt(s, p) ==> p in at)
    requires (forall j, k :: 0 <= j < k < |at| ==> at[j] < at[k]) && i < |at|
    ensures NextHeading(s, at[i] + 1) == if i + 1 < |at| then Some(at[i + 1]) else None
  {
    var next := NextHeading(s, at[i] + 1);
    if next.Some? {
      assert next.value in at;
    }
  }

  // ----- hard_rules and check_rules ------------------------------------------------------

  /** None is the ValueError of a document whose rules cannot be cut. */
  function HardRules(doc: string): Option<string> {
    var start := Find(doc, RulesHeading, 0);
    if start.None? then None
    else
      var end := Find(doc, RulesEnd, start.value);
      if end.None? then None else Some(RStrip(doc[start.value..end.value]) + "\n")
  }

  datatype Refusal = NoRules | RulesNotClosed | NoPacket

  function CheckRules(doc: string): Option<Refusal> {
    var start := Find(doc, RulesHeading, 0);
    if start.None? then Some(NoRules)
    else if Find(doc[start.value..], RulesEnd, 0).None? then Some(RulesNotClosed)
    else None
  }

  /** `composed_brief`. */
  function ComposedBrief(doc: string, id: string): Result<string, Refusal> {
    if CheckRules(doc).Some? then Failure(CheckRules(doc).value)
    else if HardRules(doc).None? then Failure(NoRules)
    else if PacketText(doc, id).None? then Failure(NoPacket)
    else Success(RStrip(HardRules(doc).value) + Closing + PacketText(doc, id).value)
  }

  /** `packet_brief`. */
  function PacketBrief(rules: string, body: string): string {
    RStrip(rules) + Closing + Strip(body) + "\n"
  }

  /** `parse_packet`, up to the body. */
  function PacketBody(text: string): Option<(string, string)> {
    match NextHeading(text, 0)
    case None => None
    case Some(p) => Some((IdAt(text, p), Strip(text[p..|text|])))
  }

  lemma OccursShift(s: string, pat: string, p: nat, k: nat)
    requires p <= |s|
    ensures OccursAt(s[p..], pat, k) <==> OccursAt(s, pat, p + k)
  {
    if p + k + |pat| <= |s| {
      assert s[p..][k..k + |pat|] == s[p + k..p + k + |pat|];
    }
  }

  lemma FindShift(s: string, pat: string, p: nat)
    requires p <= |s|
    ensures Find(s[p..], pat, 0).Some? <==> Find(s, pat, p).Some?
  {
    var here, there := Find(s[p..], pat, 0), Find(s, pat, p);
    if here.Some? {
      OccursShift(s, pat, p, here.value);
    }
    if there.Some? {
      OccursShift(s, pat, p, there.value - p);
    }
  }

  /** The check refuses exactly the documents the reader cannot cut. */
  lemma CheckedIsCut(doc: string)
    ensures CheckRules(doc).None? <==> HardRules(doc).Some?
  {
    var start := Find(doc, RulesHeading, 0);
    if start.Some? {
      FindShift(doc, RulesEnd, start.value);
    }
  }

  // ----- Headings where texts agree ------------------------------------------------------

  /** The texts agree for `n` characters from `i` and from `j` on. */
  predicate Agree(a: string, i: nat, b: string, j: nat, n: nat) {
    i + n <= |a| && j + n <= |b| && forall k :: i <= k < i + n ==> a[k] == b[j + (k - i)]
  }

  lemma {:induction false} SameDigits(a: string, i: nat, b: string, j: nat)
    requires Agree(a, i, b, j, Digits(a, i) + 1)
    ensures Digits(b, j) == Digits(a, i)
    decreases Digits(a, i)
  {
    assert a[i] == b[j];
    if Digits(a, i) > 0 {
      SameDigits(a, i + 1, b, j + 1);
    }
  }

  lemma SameMark(a: string, i: nat, b: string, j: nat, n: nat)
    requires Marked(a, i) && Agree(a, i, b, j, n) && n >= 6
    ensures Marked(b, j)
  {
    assert a[i] == b[j] && a[i + 1] == b[j + 1] && a[i + 2] == b[j + 2];
    assert a[i + 3] == b[j + 3] && a[i + 4] == b[j + 4] && a[i + 5] == b[j + 5];
  }

  lemma SameTitle(a: string, i: nat, b: string, j: nat)
    requires HeadingAt(a, i) && Agree(a, i, b, j, TitleAt(a, i) - i + 1)
    ensures Marked(b, j) && Digits(b, j + 6) == Digits(a, i + 6) && TitleAt(b, j) - j == TitleAt(a, i) - i
  {
    SameMark(a, i, b, j, TitleAt(a, i) - i + 1);
    assert Agree(a, i + 6, b, j + 6, Digits(a, i + 6) + 1);
    SameDigits(a, i + 6, b, j + 6);
  }

  lemma SameSlice(a: string, i: nat, b: string, j: nat, n: nat, k: nat, m: nat)
    requires Agree(a, i, b, j, n) && k <= m <= n
    ensures a[i + k..i + m] == b[j + k..j + m]
  {
    forall x | i + k <= x < i + m ensures a[x] == b[j + (x - i)] {
    }
  }

  /** A heading stays one in another text that agrees with this one up to the title. */
  lemma SameHeading(a: string, i: nat, b: string, j: nat)
    requires HeadingAt(a, i) && LineStart(b, j) && Agree(a, i, b, j, TitleAt(a, i) - i + 1)
    ensures HeadingAt(b, j) && TitleAt(b, j) - j == TitleAt(a, i) - i && IdAt(b, j) == IdAt(a, i)
  {
    var t := TitleAt(a, i);
    SameTitle(a, i, b, j);
    assert a[t] == b[j + (t - i)] && a[t - 1] == b[j + (t - 1 - i)] && a[t - 2] == b[j + (t - 2 - i)];
    SameSlice(a, i, b, j, t - i + 1, 5, t - 2 - i);
  }

  /** A heading is on one line. */
  lemma HeadingHasNoBreak(s: string, p: nat)
    requires HeadingAt(s, p)
    ensures forall k :: p <= k <= TitleAt(s, p) ==> s[k] != '\n'
  {
    forall k | p <= k <= TitleAt(s, p) ensures s[k] != '\n' {
      if p + 6 <= k < TitleAt(s, p) - 2 {
        assert Digit(s[k]);
      }
    }
  }
}
