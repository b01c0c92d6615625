/** The brief printers and readers undo each other: what is read out of a printed brief is what
    was printed into it, and exactly when. */
module BriefLaws {
  import opened Wrappers
  import opened Text
  import opened Brief

  /** What both printers print. */
  function Print(rules: string, section: string): string {
    rules + Closing + section + "\n"
  }

  /** Where the section starts. */
  function Offset(rules: string): nat {
    |rules| + 7
  }

  lemma PrintedAt(rules: string, section: string)
    ensures var p, o := Print(rules, section), Offset(rules);
            && |p| == o + |section| + 1
            && (forall k :: 0 <= k < |rules| ==> p[k] == rules[k])
            && p[o - 7] == '\n' && p[o - 6] == '\n' && p[o - 5] == '-' && p[o - 4] == '-' && p[o - 3] == '-'
            && p[o - 2] == '\n' && p[o - 1] == '\n'
            && (forall k :: 0 <= k < |section| ==> p[o + k] == section[k])
            && p[o + |section|] == '\n'
            && p[o..] == section + "\n" && p[..|rules|] == rules
  {
    var p, o := Print(rules, section), Offset(rules);
    forall k | 0 <= k < 7 ensures p[|rules| + k] == Closing[k] {
    }
    assert p[|rules| + 0] == '\n' && p[|rules| + 1] == '\n' && p[|rules| + 2] == '-';
    assert p[|rules| + 3] == '-' && p[|rules| + 4] == '-' && p[|rules| + 5] == '\n' && p[|rules| + 6] == '\n';
  }

  predicate Stripped(s: string) {
    s == "" || !IsSpace(s[|s| - 1])
  }

  lemma StrippedStays(s: string)
    requires Stripped(s)
    ensures RStrip(s) == s && RStrip(s + "\n") == s
  {
    assert s[|s|..] == "" && (s + "\n")[|s|..] == "\n";
    RStripUnique(s, s);
    RStripUnique(s + "\n", s);
  }

  lemma RStripped(s: string)
    ensures Stripped(RStrip(s))
  {
  }

  /** Stripping stops at the last visible character. */
  lemma {:induction false} StripReaches(s: string, k: nat)
    requires k < |s| && !IsSpace(s[k])
    ensures k < |RStrip(s)|
  {
    if IsSpace(s[|s| - 1]) {
      StripReaches(s[..|s| - 1], k);
    }
  }

  lemma EndChars(s: string, k: nat)
    ensures OccursAt(s, RulesEnd, k) <==>
            k + 4 <= |s| && s[k] == '\n' && s[k + 1] == '-' && s[k + 2] == '-' && s[k + 3] == '-'
  {
    if k + 4 <= |s| {
      var w := s[k..k + 4];
      assert w[0] == s[k] && w[1] == s[k + 1] && w[2] == s[k + 2] && w[3] == s[k + 3];
      assert w == [w[0], w[1], w[2], w[3]];
    }
  }

  lemma PhaseChars(s: string, k: nat)
    ensures OccursAt(s, Phase, k) <==>
            k + 4 <= |s| && s[k] == '\n' && s[k + 1] == '#' && s[k + 2] == '#' && s[k + 3] == ' '
  {
    if k + 4 <= |s| {
      var w := s[k..k + 4];
      assert w[0] == s[k] && w[1] == s[k + 1] && w[2] == s[k + 2] && w[3] == s[k + 3];
      assert w == [w[0], w[1], w[2], w[3]];
    }
  }

  // ----- The rules -----------------------------------------------------------------------

  /** What `hard_rules` cuts: it opens with the heading, is not closed, and ends visibly. */
  predicate Rules(r: string) {
    OccursAt(r, RulesHeading, 0) && (forall k :: 0 <= k <= |r| ==> !OccursAt(r, RulesEnd, k)) && Stripped(r)
  }

  lemma FindIs(s: string, pat: string, from: nat, k: nat)
    requires from <= k && OccursAt(s, pat, k) && forall i :: from <= i < k ==> !OccursAt(s, pat, i)
    ensures Find(s, pat, from) == Some(k)
  {
  }

  lemma EndNotBefore(rules: string, section: string, k: nat)
    requires Rules(rules) && k <= |rules|
    ensures !OccursAt(Print(rules, section), RulesEnd, k)
  {
    PrintedAt(rules, section);
    EndChars(Print(rules, section), k);
    EndChars(rules, k);
  }

  /** The rules printed are the rules read. */
  lemma RulesAreRead(rules: string, section: string)
    requires Rules(rules)
    ensures HardRules(Print(rules, section)) == Some(rules + "\n")
  {
    var p, n := Print(rules, section), |rules|;
    PrintedAt(rules, section);
    assert p[0..16] == rules[0..16];
    FindIs(p, RulesHeading, 0, 0);
    forall k | 0 <= k < n + 1 ensures !OccursAt(p, RulesEnd, k) {
      EndNotBefore(rules, section, k);
    }
    assert p[n + 1..n + 5] == RulesEnd;
    FindIs(p, RulesEnd, 0, n + 1);
    assert p[0..n + 1] == rules + "\n";
    StrippedStays(rules);
  }

  lemma {:induction false} StripKeepsNone(s: string, r: string, pat: string)
    requires r <= s && forall k :: 0 <= k <= |s| ==> !OccursAt(s, pat, k)
    ensures forall k :: 0 <= k <= |r| ==> !OccursAt(r, pat, k)
  {
    forall k: nat | k <= |r| ensures !OccursAt(r, pat, k) {
      if k + |pat| <= |r| {
        assert r[k..k + |pat|] == s[k..k + |pat|];
      }
      assert !OccursAt(s, pat, k);
    }
  }

  lemma SliceOfSlice(s: string, from: nat, to: nat, k: nat, n: nat)
    requires from + k + n <= to <= |s|
    ensures s[from..to][k..k + n] == s[from + k..from + k + n]
  {
    var a, b := s[from..to][k..k + n], s[from + k..from + k + n];
    forall i | 0 <= i < n ensures a[i] == b[i] {
      assert s[from..to][k + i] == s[from + (k + i)];
    }
  }

  /** Before the first occurrence there is none. */
  lemma NoneBefore(s: string, pat: string, from: nat, to: nat)
    requires from <= to <= |s| && pat != "" && (forall k :: from <= k < to ==> !OccursAt(s, pat, k))
    ensures forall k :: 0 <= k <= to - from ==> !OccursAt(s[from..to], pat, k)
  {
    forall k: nat | k <= to - from ensures !OccursAt(s[from..to], pat, k) {
      if k + |pat| <= to - from {
        SliceOfSlice(s, from, to, k, |pat|);
        assert !OccursAt(s, pat, from + k);
      }
    }
  }

  lemma HeadingLeadsUp(doc: string, start: nat, end: nat)
    requires OccursAt(doc, RulesHeading, start) && OccursAt(doc, RulesEnd, end) && start <= end
    ensures start + 16 <= end
    ensures OccursAt(RStrip(doc[start..end]), RulesHeading, 0)
  {
    EndChars(doc, end);
    forall i | start <= i < start + 16 ensures doc[i] != '\n' && doc[i] == RulesHeading[i - start] {
      assert doc[i] == doc[start..start + 16][i - start];
    }
    var whole := doc[start..end];
    assert whole[15] == doc[start + 15];
    StripReaches(whole, 15);
    assert RStrip(whole)[0..16] == doc[start..start + 16];
  }

  /** What `hard_rules` reads from any document is rules, and a newline. */
  lemma RulesOf(doc: string)
    requires HardRules(doc).Some?
    ensures var r := RStrip(HardRules(doc).value); Rules(r) && HardRules(doc).value == r + "\n"
  {
    var start := Find(doc, RulesHeading, 0).value;
    var end := Find(doc, RulesEnd, start).value;
    var r := RStrip(doc[start..end]);
    RStripped(doc[start..end]);
    StrippedStays(r);
    HeadingLeadsUp(doc, start, end);
    NoneBefore(doc, RulesEnd, start, end);
    StripKeepsNone(doc[start..end], r, RulesEnd);
  }

  // ----- The headings of a printed brief -------------------------------------------------

  lemma HeadingInRules(rules: string, section: string, q: nat)
    requires q < |rules|
    ensures HeadingAt(Print(rules, section), q) <==> HeadingAt(rules, q)
    ensures HeadingAt(rules, q) ==> IdAt(Print(rules, section), q) == IdAt(rules, q)
  {
    var p := Print(rules, section);
    PrintedAt(rules, section);
    if HeadingAt(rules, q) {
      assert Agree(rules, q, p, q, TitleAt(rules, q) - q + 1);
      SameHeading(rules, q, p, q);
    } else if HeadingAt(p, q) {
      HeadingHasNoBreak(p, q);
      assert TitleAt(p, q) < |rules|;
      assert Agree(p, q, rules, q, TitleAt(p, q) - q + 1);
      SameHeading(p, q, rules, q);
    }
  }

  lemma SectionAgrees(rules: string, section: string, q: nat, n: nat)
    requires q + n <= |section|
    ensures Agree(section, q, Print(rules, section), Offset(rules) + q, n)
    ensures Agree(Print(rules, section), Offset(rules) + q, section, q, n)
  {
    var p, o := Print(rules, section), Offset(rules);
    PrintedAt(rules, section);
    forall k | o + q <= k < o + q + n ensures p[k] == section[q + (k - (o + q))] {
      assert p[o + (k - o)] == section[k - o];
    }
  }

  lemma SectionLines(rules: string, section: string, q: nat)
    requires q <= |section|
    ensures LineStart(Print(rules, section), Offset(rules) + q) <==> LineStart(section, q)
  {
    PrintedAt(rules, section);
    assert q > 0 ==> Print(rules, section)[Offset(rules) + (q - 1)] == section[q - 1];
  }

  lemma HeadingPrinted(rules: string, section: string, q: nat)
    requires q <= |section| && HeadingAt(section, q)
    ensures HeadingAt(Print(rules, section), Offset(rules) + q)
    ensures IdAt(Print(rules, section), Offset(rules) + q) == IdAt(section, q)
  {
    SectionLines(rules, section, q);
    SectionAgrees(rules, section, q, TitleAt(section, q) - q + 1);
    SameHeading(section, q, Print(rules, section), Offset(rules) + q);
  }

  lemma TitleBefore(s: string, p: nat, e: nat)
    requires HeadingAt(s, p) && p <= e < |s| && s[e] == '\n'
    ensures TitleAt(s, p) < e
  {
    HeadingHasNoBreak(s, p);
  }

  /** A heading on a line that ends where the agreement does. */
  lemma SameHeadingBefore(a: string, i: nat, b: string, j: nat, n: nat)
    requires HeadingAt(a, i) && LineStart(b, j) && Agree(a, i, b, j, n) && i + n < |a| && a[i + n] == '\n'
    ensures HeadingAt(b, j)
  {
    TitleBefore(a, i, i + n);
    SameHeading(a, i, b, j);
  }

  lemma HeadingWasPrinted(rules: string, section: string, q: nat)
    requires q <= |section| && HeadingAt(Print(rules, section), Offset(rules) + q)
    ensures HeadingAt(section, q)
  {
    SectionLines(rules, section, q);
    SectionAgrees(rules, section, q, |section| - q);
    assert Print(rules, section)[Offset(rules) + |section|] == '\n' by {
      PrintedAt(rules, section);
    }
    SameHeadingBefore(Print(rules, section), Offset(rules) + q, section, q, |section| - q);
  }

  lemma HeadingInSection(rules: string, section: string, q: nat)
    requires q <= |section|
    ensures HeadingAt(Print(rules, section), Offset(rules) + q) <==> HeadingAt(section, q)
    ensures HeadingAt(section, q) ==> IdAt(Print(rules, section), Offset(rules) + q) == IdAt(section, q)
  {
    if HeadingAt(section, q) {
      HeadingPrinted(rules, section, q);
    }
    if HeadingAt(Print(rules, section), Offset(rules) + q) {
      HeadingWasPrinted(rules, section, q);
    }
  }

  /** The headings of a printed brief are those of the rules and those of the section. */
  lemma HeadingsOfPrinted(rules: string, section: string, q: nat)
    requires HeadingAt(Print(rules, section), q)
    ensures q < |rules| || Offset(rules) <= q < Offset(rules) + |section|
  {
    PrintedAt(rules, section);
  }

  // ----- The section ---------------------------------------------------------------------

  ghost predicate NoHeadingOf(s: string, id: string) {
    forall q :: !HeadingOf(s, q, id)
  }

  ghost predicate OnlyHeading(s: string) {
    forall q :: q > 0 ==> !HeadingAt(s, q)
  }

  ghost predicate NoPhase(s: string) {
    forall q :: !OccursAt(s, Phase, q)
  }

  /** A text that is one packet section, of the packet `id`. */
  ghost predicate IsSection(s: string, id: string) {
    HeadingOf(s, 0, id) && OnlyHeading(s) && NoPhase(s)
  }

  lemma FirstIsSection(rules: string, section: string, id: string)
    requires NoHeadingOf(rules, id)
    ensures var p, o := Print(rules, section), Offset(rules);
            && (forall q :: 0 <= q < o ==> !HeadingOf(p, q, id))
            && (HeadingOf(p, o, id) <==> HeadingOf(section, 0, id))
  {
    var p, o := Print(rules, section), Offset(rules);
    forall q: nat | q < o ensures !HeadingOf(p, q, id) {
      if HeadingAt(p, q) {
        HeadingsOfPrinted(rules, section, q);
        HeadingInRules(rules, section, q);
        assert !HeadingOf(rules, q, id);
      }
    }
    HeadingInSection(rules, section, 0);
  }

  lemma NoPhaseAcross(rules: string, section: string, k: nat)
    requires NoPhase(section) && k >= Offset(rules)
    ensures !OccursAt(Print(rules, section), Phase, k)
  {
    var p, o := Print(rules, section), Offset(rules);
    PrintedAt(rules, section);
    PhaseChars(p, k);
    PhaseChars(section, k - o);
    assert !OccursAt(section, Phase, k - o);
    assert k + 4 <= o + |section| ==> p[o + (k - o)] == section[k - o] && p[o + (k + 1 - o)] == section[k + 1 - o];
    assert k + 4 <= o + |section| ==> p[o + (k + 2 - o)] == section[k + 2 - o] && p[o + (k + 3 - o)] == section[k + 3 - o];
  }

  lemma NoHeadingAfter(rules: string, section: string, q: nat)
    requires OnlyHeading(section) && q > Offset(rules)
    ensures !HeadingAt(Print(rules, section), q)
  {
    if HeadingAt(Print(rules, section), q) {
      HeadingsOfPrinted(rules, section, q);
      HeadingInSection(rules, section, q - Offset(rules));
    }
  }

  lemma ReadsToTheEnd(rules: string, section: string)
    requires OnlyHeading(section) && NoPhase(section)
    ensures Offset(rules) < |Print(rules, section)|
    ensures SectionEnd(Print(rules, section), Offset(rules)) == |Print(rules, section)|
  {
    var p, o := Print(rules, section), Offset(rules);
    PrintedAt(rules, section);
    var next, phase := NextHeading(p, o + 1), Find(p, Phase, LineEnd(p, o));
    if next.Some? {
      NoHeadingAfter(rules, section, next.value);
    }
    if phase.Some? {
      NoPhaseAcross(rules, section, phase.value);
    }
  }

  lemma PacketTextIs(s: string, id: string, at: nat)
    requires HeadingOf(s, at, id) && forall q :: 0 <= q < at ==> !HeadingOf(s, q, id)
    ensures FirstHeading(s, id, 0) == Some(at) && at <= SectionEnd(s, at) <= |s|
    ensures PacketText(s, id) == Some(RStrip(s[at..SectionEnd(s, at)]) + "\n")
  {
    SectionEndBounds(s, at);
  }

  /** A section printed is a section read. */
  lemma SectionIsRead(rules: string, section: string, id: string)
    requires NoHeadingOf(rules, id) && Stripped(section) && IsSection(section, id)
    ensures PacketText(Print(rules, section), id) == Some(section + "\n")
  {
    FirstIsSection(rules, section, id);
    ReadsToTheEnd(rules, section);
    PacketTextIs(Print(rules, section), id, Offset(rules));
    TailOfPrinted(rules, section);
    StrippedStays(section);
  }

  lemma TailOfPrinted(rules: string, section: string)
    ensures Offset(rules) <= |Print(rules, section)|
    ensures Print(rules, section)[Offset(rules)..|Print(rules, section)|] == section + "\n"
  {
    PrintedAt(rules, section);
  }

  /** What is cut behind the section's start is shorter than the section. */
  lemma LaterIsShorter(rules: string, section: string, at: nat, e: nat)
    requires Offset(rules) < at <= e <= |Print(rules, section)| && section != ""
    ensures |RStrip(Print(rules, section)[at..e])| < |section|
  {
    var p := Print(rules, section);
    PrintedAt(rules, section);
    var tail := p[at..e];
    assert tail != "" && e == |p| ==> tail[|tail| - 1] == '\n';
  }

  lemma SameBeforeBreak(a: string, b: string)
    requires a + "\n" == b + "\n"
    ensures a == b
  {
    assert a == (a + "\n")[..|a + "\n"| - 1] == (b + "\n")[..|b + "\n"| - 1] == b;
  }

  /** What is read runs from the section's start, as far as the section does. */
  lemma ReadFromStart(rules: string, section: string, id: string)
    requires NoHeadingOf(rules, id) && section != ""
    requires PacketText(Print(rules, section), id) == Some(section + "\n")
    ensures var p, o := Print(rules, section), Offset(rules);
            && FirstHeading(p, id, 0) == Some(o) && o < |p|
            && o + |section| <= SectionEnd(p, o) <= |p|
  {
    var p, o := Print(rules, section), Offset(rules);
    FirstIsSection(rules, section, id);
    var at := FirstHeading(p, id, 0).value;
    SectionEndBounds(p, at);
    SameBeforeBreak(section, RStrip(p[at..SectionEnd(p, at)]));
    if at > o {
      LaterIsShorter(rules, section, at, SectionEnd(p, at));
    }
  }

  lemma PhasePrinted(rules: string, section: string, k: nat)
    requires OccursAt(section, Phase, k)
    ensures OccursAt(Print(rules, section), Phase, Offset(rules) + k)
    ensures Offset(rules) <= |Print(rules, section)| && LineEnd(Print(rules, section), Offset(rules)) <= Offset(rules) + k
  {
    var p, o := Print(rules, section), Offset(rules);
    PrintedAt(rules, section);
    PhaseChars(section, k);
    assert p[o + k] == section[k] && p[o + (k + 1)] == section[k + 1];
    assert p[o + (k + 2)] == section[k + 2] && p[o + (k + 3)] == section[k + 3];
    PhaseChars(p, o + k);
  }

  /** Only a section is read whole. */
  lemma ReadIsSection(rules: string, section: string, id: string)
    requires NoHeadingOf(rules, id) && section != ""
    requires PacketText(Print(rules, section), id) == Some(section + "\n")
    ensures IsSection(section, id)
  {
    var p, o := Print(rules, section), Offset(rules);
    FirstIsSection(rules, section, id);
    ReadFromStart(rules, section, id);
    SectionEndBounds(p, o);
    forall q: nat | q > 0 ensures !HeadingAt(section, q) {
      if HeadingAt(section, q) {
        HeadingPrinted(rules, section, q);
      }
    }
    forall k: nat ensures !OccursAt(section, Phase, k) {
      if OccursAt(section, Phase, k) {
        PhasePrinted(rules, section, k);
      }
    }
  }

  // ----- Sections cut from a document ----------------------------------------------------

  /** There is something to see between the heading's number and the end of the section. */
  ghost predicate Visible(doc: string, p: nat, e: nat)
    requires HeadingAt(doc, p) && e <= |doc|
  {
    exists k :: TitleAt(doc, p) <= k < e && !IsSpace(doc[k])
  }

  lemma CutAgrees(doc: string, p: nat, e: nat, q: nat, n: nat)
    requires p <= e <= |doc| && q + n <= |RStrip(doc[p..e])|
    ensures Agree(RStrip(doc[p..e]), q, doc, p + q, n) && Agree(doc, p + q, RStrip(doc[p..e]), q, n)
  {
    var s := RStrip(doc[p..e]);
    assert forall i :: 0 <= i < |s| ==> s[i] == doc[p..e][i] == doc[p + i];
    forall i | p + q <= i < p + q + n ensures doc[i] == s[q + (i - (p + q))] {
      assert s[i - p] == doc[p + (i - p)];
    }
  }

  lemma VisibleKeepsHeading(doc: string, p: nat, e: nat)
    requires HeadingAt(doc, p) && p < e <= |doc| && Visible(doc, p, e)
    ensures HeadingAt(RStrip(doc[p..e]), 0) && IdAt(RStrip(doc[p..e]), 0) == IdAt(doc, p)
  {
    var s := RStrip(doc[p..e]);
    var k :| TitleAt(doc, p) <= k < e && !IsSpace(doc[k]);
    assert doc[p..e][k - p] == doc[k];
    StripReaches(doc[p..e], k - p);
    CutAgrees(doc, p, e, 0, TitleAt(doc, p) - p + 1);
    SameHeading(doc, p, s, 0);
  }

  lemma HeadingIsVisible(doc: string, p: nat, e: nat)
    requires HeadingAt(doc, p) && p < e <= |doc| && HeadingAt(RStrip(doc[p..e]), 0)
    ensures Visible(doc, p, e)
  {
    var s := RStrip(doc[p..e]);
    CutAgrees(doc, p, e, 0, TitleAt(s, 0) + 1);
    SameHeading(s, 0, doc, p);
    var last := |s| - 1;
    assert s[last] == doc[p..e][last] == doc[p + last];
    assert TitleAt(doc, p) <= p + last < e && !IsSpace(doc[p + last]);
  }

  /** A cut section keeps its heading exactly when something follows the number. */
  lemma CutKeepsHeading(doc: string, p: nat, e: nat)
    requires HeadingAt(doc, p) && p < e <= |doc|
    ensures HeadingAt(RStrip(doc[p..e]), 0) <==> Visible(doc, p, e)
    ensures HeadingAt(RStrip(doc[p..e]), 0) ==> IdAt(RStrip(doc[p..e]), 0) == IdAt(doc, p)
  {
    if Visible(doc, p, e) {
      VisibleKeepsHeading(doc, p, e);
    }
    if HeadingAt(RStrip(doc[p..e]), 0) {
      HeadingIsVisible(doc, p, e);
    }
  }

  lemma CutLines(doc: string, p: nat, e: nat, q: nat)
    requires p < e <= |doc| && LineStart(doc, p) && q <= |RStrip(doc[p..e])| && LineStart(RStrip(doc[p..e]), q)
    ensures LineStart(doc, p + q)
  {
    assert q > 0 ==> RStrip(doc[p..e])[q - 1] == doc[p..e][q - 1] == doc[p + (q - 1)];
  }

  lemma HeadingOfCut(doc: string, p: nat, e: nat, q: nat)
    requires p < e <= |doc| && LineStart(doc, p) && HeadingAt(RStrip(doc[p..e]), q)
    ensures HeadingAt(doc, p + q) && p + q < e
  {
    CutLines(doc, p, e, q);
    CutAgrees(doc, p, e, q, TitleAt(RStrip(doc[p..e]), q) - q + 1);
    SameHeading(RStrip(doc[p..e]), q, doc, p + q);
  }

  lemma PhaseOfCut(doc: string, p: nat, e: nat, k: nat)
    requires p < e <= |doc| && OccursAt(RStrip(doc[p..e]), Phase, k)
    ensures LineEnd(doc, p) <= p + k < e && OccursAt(doc, Phase, p + k)
  {
    var s := RStrip(doc[p..e]);
    assert forall i :: 0 <= i < |s| ==> s[i] == doc[p..e][i] == doc[p + i];
    PhaseChars(s, k);
    PhaseChars(doc, p + k);
    assert s[k + 1] == doc[p + (k + 1)] && s[k + 2] == doc[p + (k + 2)] && s[k + 3] == doc[p + (k + 3)];
  }

  /** A section cut from a document holds no other heading, and no phase. */
  lemma CutHasNoOther(doc: string, p: nat)
    requires p < |doc| && LineStart(doc, p) && p < SectionEnd(doc, p) <= |doc|
    ensures OnlyHeading(RStrip(doc[p..SectionEnd(doc, p)])) && NoPhase(RStrip(doc[p..SectionEnd(doc, p)]))
  {
    var e := SectionEnd(doc, p);
    SectionEndBounds(doc, p);
    forall q: nat | q > 0 ensures !HeadingAt(RStrip(doc[p..e]), q) {
      if HeadingAt(RStrip(doc[p..e]), q) {
        HeadingOfCut(doc, p, e, q);
      }
    }
    forall k: nat ensures !OccursAt(RStrip(doc[p..e]), Phase, k) {
      if OccursAt(RStrip(doc[p..e]), Phase, k) {
        PhaseOfCut(doc, p, e, k);
      }
    }
  }

  lemma SectionNotEmpty(doc: string, p: nat)
    requires HeadingAt(doc, p)
    ensures p < SectionEnd(doc, p) <= |doc|
    ensures RStrip(doc[p..SectionEnd(doc, p)]) != ""
  {
    SectionEndBounds(doc, p);
    HeadingHasNoBreak(doc, p);
    var e := SectionEnd(doc, p);
    assert doc[p..e][0] == doc[p] == '#';
    StripReaches(doc[p..e], 0);
  }

  // ----- A heading of the packet in the rules --------------------------------------------

  /** What the rules hold of the packet they have a heading of: to the next heading, or to the line
      that closes them. */
  function RulesCut(rules: string, q: nat): string
    requires q < |rules|
  {
    SectionEndBounds(rules, q);
    if SectionEnd(rules, q) < |rules| then RStrip(rules[q..SectionEnd(rules, q)]) else rules[q..] + "\n\n---"
  }

  lemma LineEndInRules(rules: string, section: string, q: nat)
    requires q <= |rules|
    ensures q <= |Print(rules, section)| && LineEnd(Print(rules, section), q) == LineEnd(rules, q)
  {
    PrintedAt(rules, section);
  }

  lemma PhaseInRules(rules: string, section: string, k: nat)
    requires k < Offset(rules) - 1
    ensures OccursAt(Print(rules, section), Phase, k) <==> OccursAt(rules, Phase, k)
  {
    PrintedAt(rules, section);
    PhaseChars(Print(rules, section), k);
    PhaseChars(rules, k);
  }

  /** A section that ends inside the rules ends there in print. */
  lemma EndInRules(rules: string, section: string, q: nat)
    requires q < |rules| && SectionEnd(rules, q) < |rules|
    ensures q <= |Print(rules, section)| && SectionEnd(Print(rules, section), q) == SectionEnd(rules, q)
  {
    var p, e := Print(rules, section), SectionEnd(rules, q);
    PrintedAt(rules, section);
    SectionEndBounds(rules, q);
    LineEndInRules(rules, section, q);
    NextInRules(rules, section, q + 1);
    NextPhaseInRules(rules, section, LineEnd(rules, q));
  }

  /** The next heading of the print is that of the rules, or behind them. */
  lemma NextInRules(rules: string, section: string, from: nat)
    ensures var n, m := NextHeading(Print(rules, section), from), NextHeading(rules, from);
            if m.Some? then n == m else n.Some? ==> n.value >= Offset(rules)
  {
    var n, m := NextHeading(Print(rules, section), from), NextHeading(rules, from);
    if n.Some? {
      HeadingsOfPrinted(rules, section, n.value);
      if n.value < |rules| {
        HeadingInRules(rules, section, n.value);
      }
    }
    if m.Some? {
      HeadingInRules(rules, section, m.value);
    }
  }

  /** And the next phase heading that of the rules, or at the earliest the break before the section. */
  lemma NextPhaseInRules(rules: string, section: string, from: nat)
    ensures var n, m := Find(Print(rules, section), Phase, from), Find(rules, Phase, from);
            if m.Some? then n == m else n.Some? ==> n.value >= Offset(rules) - 1
  {
    var n, m := Find(Print(rules, section), Phase, from), Find(rules, Phase, from);
    if n.Some? && n.value < Offset(rules) - 1 {
      PhaseInRules(rules, section, n.value);
    }
    if m.Some? {
      PhaseInRules(rules, section, m.value);
    }
  }

  lemma UnclosedInRules(rules: string, q: nat)
    requires q < |rules| && SectionEnd(rules, q) == |rules|
    ensures NextHeading(rules, q + 1).None? && Find(rules, Phase, LineEnd(rules, q)).None?
  {
  }

  /** One that does not is cut behind the closing line. */
  lemma EndBehindRules(rules: string, section: string, q: nat)
    requires q < |rules| && SectionEnd(rules, q) == |rules|
    ensures q <= |Print(rules, section)| && SectionEnd(Print(rules, section), q) >= Offset(rules) - 1
  {
    PrintedAt(rules, section);
    UnclosedInRules(rules, q);
    LineEndInRules(rules, section, q);
    NextInRules(rules, section, q + 1);
    NextPhaseInRules(rules, section, LineEnd(rules, q));
  }

  /** Before the section, when it opens with a heading. */
  lemma EndAtSection(rules: string, section: string, q: nat)
    requires q < |rules| && SectionEnd(rules, q) == |rules| && HeadingAt(section, 0)
    ensures q <= |Print(rules, section)| && SectionEnd(Print(rules, section), q) == Offset(rules)
  {
    var p, o := Print(rules, section), Offset(rules);
    EndBehindRules(rules, section, q);
    UnclosedInRules(rules, q);
    HeadingPrinted(rules, section, 0);
    NextInRules(rules, section, q + 1);
    assert NextHeading(p, q + 1) == Some(o);
    assert !OccursAt(p, Phase, o - 1) by {
      PhaseChars(p, o - 1);
      assert p[o + 2] == '#';
    }
  }

  lemma ClosingStrips(rules: string, section: string, q: nat)
    requires q < |rules|
    ensures Offset(rules) <= |Print(rules, section)| && RStrip(Print(rules, section)[q..Offset(rules)]) == rules[q..] + "\n\n---"
  {
    var p, o := Print(rules, section), Offset(rules);
    PrintedAt(rules, section);
    var r := rules[q..] + "\n\n---";
    assert p[q..o] == r + "\n\n";
    assert (r + "\n\n")[|r|..] == "\n\n" && r[|r| - 1] == '-';
    RStripUnique(r + "\n\n", r);
  }

  lemma RulesCutHasHeading(rules: string, q: nat)
    requires HeadingAt(rules, q) && q < |rules| && SectionEnd(rules, q) == |rules|
    ensures HeadingAt(RulesCut(rules, q), 0)
  {
    var c := RulesCut(rules, q);
    assert forall k :: q <= k < |rules| ==> c[k - q] == rules[k];
    assert Agree(rules, q, c, 0, TitleAt(rules, q) - q + 1);
    SameHeading(rules, q, c, 0);
  }

  /** Behind the closing line a cut keeps its heading. */
  lemma LongCutHasHeading(rules: string, section: string, q: nat)
    requires HeadingAt(rules, q) && q < |rules| && SectionEnd(rules, q) == |rules|
    ensures var p := Print(rules, section);
            q < |p| && q <= SectionEnd(p, q) <= |p| && HeadingAt(RStrip(p[q..SectionEnd(p, q)]), 0)
  {
    var p := Print(rules, section);
    PrintedAt(rules, section);
    HeadingInRules(rules, section, q);
    EndBehindRules(rules, section, q);
    SectionEndBounds(p, q);
    assert rules[TitleAt(rules, q)..] != "";
    TitleInRules(rules, section, q);
    assert !IsSpace(p[Offset(rules) - 3]);
    CutKeepsHeading(p, q, SectionEnd(p, q));
  }

  lemma TitleInRules(rules: string, section: string, q: nat)
    requires HeadingAt(rules, q) && q < |rules|
    ensures TitleAt(Print(rules, section), q) < |rules|
  {
    PrintedAt(rules, section);
    assert Agree(rules, q, Print(rules, section), q, TitleAt(rules, q) - q + 1);
    SameHeading(rules, q, Print(rules, section), q);
  }

  /** Where the rules hold a heading of the packet, that is what is read: exactly a section that says
      what the rules already say of the packet is read back. */
  lemma RulesAreReadFirst(rules: string, section: string, id: string, q: nat)
    requires Rules(rules) && Stripped(section) && section != "" && FirstHeading(rules, id, 0) == Some(q)
    ensures HeadingAt(section, 0) || SectionEnd(rules, q) < |rules| ==>
              PacketText(Print(rules, section), id) == Some(RulesCut(rules, q) + "\n")
    ensures PacketText(Print(rules, section), id) == Some(section + "\n") <==> section == RulesCut(rules, q)
  {
    var p := Print(rules, section);
    FirstOfRules(rules, section, id, q);
    PacketTextIs(p, id, q);
    if SectionEnd(rules, q) < |rules| {
      ReadInRules(rules, section, q);
    } else {
      SectionEndBounds(rules, q);
      ReadBehindRules(rules, section, id, q);
    }
    var cut := RStrip(p[q..SectionEnd(p, q)]);
    if PacketText(p, id) == Some(section + "\n") {
      SameBeforeBreak(cut, section);
    }
  }

  lemma ReadInRules(rules: string, section: string, q: nat)
    requires q < |rules| && SectionEnd(rules, q) < |rules|
    ensures var p := Print(rules, section);
            q <= SectionEnd(p, q) <= |p| && RStrip(p[q..SectionEnd(p, q)]) == RulesCut(rules, q)
  {
    var p, e := Print(rules, section), SectionEnd(rules, q);
    EndInRules(rules, section, q);
    SectionEndBounds(rules, q);
    PrintedAt(rules, section);
    assert p[q..e] == rules[q..e];
  }

  lemma FirstOfRules(rules: string, section: string, id: string, q: nat)
    requires FirstHeading(rules, id, 0) == Some(q)
    ensures HeadingOf(Print(rules, section), q, id) && forall k :: 0 <= k < q ==> !HeadingOf(Print(rules, section), k, id)
  {
    forall k: nat | k <= q ensures HeadingOf(Print(rules, section), k, id) <==> HeadingOf(rules, k, id) {
      HeadingInRules(rules, section, k);
    }
  }

  lemma ReadBehindRules(rules: string, section: string, id: string, q: nat)
    requires HeadingOf(rules, q, id) && q < |rules| && SectionEnd(rules, q) == |rules|
    ensures var p := Print(rules, section);
            && q < |p| && q <= SectionEnd(p, q) <= |p|
            && (HeadingAt(section, 0) ==> RStrip(p[q..SectionEnd(p, q)]) == RulesCut(rules, q))
            && (RStrip(p[q..SectionEnd(p, q)]) == section <==> section == RulesCut(rules, q))
  {
    LongCutHasHeading(rules, section, q);
    RulesCutHasHeading(rules, q);
    if HeadingAt(section, 0) {
      EndAtSection(rules, section, q);
      ClosingStrips(rules, section, q);
    }
  }

  /** The packet a printed brief is to carry is read back exactly when it is one section of that
      packet, or where the rules hold a heading of the packet, says what the rules say of it. */
  lemma PrintedIsReadExactly(rules: string, section: string, id: string)
    requires Rules(rules) && Stripped(section) && section != ""
    ensures HardRules(Print(rules, section)) == Some(rules + "\n")
    ensures PacketText(Print(rules, section), id) == Some(section + "\n") <==>
            match FirstHeading(rules, id, 0)
            case Some(q) => section == RulesCut(rules, q)
            case None => IsSection(section, id)
  {
    RulesAreRead(rules, section);
    match FirstHeading(rules, id, 0)
    case Some(q) => RulesAreReadFirst(rules, section, id, q);
    case None =>
      if IsSection(section, id) {
        SectionIsRead(rules, section, id);
      } else if PacketText(Print(rules, section), id) == Some(section + "\n") {
        ReadIsSection(rules, section, id);
      }
  }

  // ----- The printers --------------------------------------------------------------------

  lemma Regrouped(a: string, b: string, c: string)
    ensures a + b + (c + "\n") == a + b + c + "\n"
  {
  }

  lemma ReprintedRules(doc: string, id: string)
    requires ComposedBrief(doc, id).Success?
    ensures var p := FirstHeading(doc, id, 0).value;
            && FirstHeading(doc, id, 0).Some? && HardRules(doc).Some? && p <= SectionEnd(doc, p) <= |doc|
            && PacketText(doc, id) == Some(RStrip(doc[p..SectionEnd(doc, p)]) + "\n")
            && ComposedBrief(doc, id).value == Print(RStrip(HardRules(doc).value), RStrip(doc[p..SectionEnd(doc, p)]))
  {
    CheckedIsCut(doc);
    var p := FirstHeading(doc, id, 0).value;
    SectionEndBounds(doc, p);
    Regrouped(RStrip(HardRules(doc).value), Closing, RStrip(doc[p..SectionEnd(doc, p)]));
  }

  /** A composed brief carries the rules over unchanged. It carries the packet over unchanged exactly
      when something visible follows the packet's number or, where the rules hold a heading of the
      packet, exactly when the document's section is what the rules say of it. */
  lemma ComposedReadsBack(doc: string, id: string)
    requires ComposedBrief(doc, id).Success?
    ensures var brief, p := ComposedBrief(doc, id).value, FirstHeading(doc, id, 0).value;
            && HardRules(brief) == HardRules(doc)
            && SectionEnd(doc, p) <= |doc|
            && (PacketText(brief, id) == PacketText(doc, id) <==>
                  match FirstHeading(RStrip(HardRules(doc).value), id, 0)
                  case Some(q) => RStrip(doc[p..SectionEnd(doc, p)]) == RulesCut(RStrip(HardRules(doc).value), q)
                  case None => Visible(doc, p, SectionEnd(doc, p)))
  {
    ReprintedRules(doc, id);
    RulesOf(doc);
    var r, p := RStrip(HardRules(doc).value), FirstHeading(doc, id, 0).value;
    var s := SectionOf(doc, id, p);
    PrintedIsReadExactly(r, s, id);
  }

  lemma SectionOf(doc: string, id: string, p: nat) returns (s: string)
    requires HeadingOf(doc, p, id)
    ensures p < SectionEnd(doc, p) <= |doc| && s == RStrip(doc[p..SectionEnd(doc, p)])
    ensures s != "" && Stripped(s) && OnlyHeading(s) && NoPhase(s)
    ensures IsSection(s, id) <==> Visible(doc, p, SectionEnd(doc, p))
  {
    SectionNotEmpty(doc, p);
    s := RStrip(doc[p..SectionEnd(doc, p)]);
    RStripped(doc[p..SectionEnd(doc, p)]);
    CutHasNoOther(doc, p);
    CutKeepsHeading(doc, p, SectionEnd(doc, p));
  }

  /** Without any of that the packet is not found in the composed brief at all. */
  lemma ComposedLosesPacket(doc: string, id: string)
    requires ComposedBrief(doc, id).Success? && NoHeadingOf(RStrip(HardRules(doc).value), id)
    ensures FirstHeading(doc, id, 0).Some? && SectionEnd(doc, FirstHeading(doc, id, 0).value) <= |doc|
    ensures PacketText(ComposedBrief(doc, id).value, id).None? <==>
            !Visible(doc, FirstHeading(doc, id, 0).value, SectionEnd(doc, FirstHeading(doc, id, 0).value))
  {
    ReprintedRules(doc, id);
    var p := FirstHeading(doc, id, 0).value;
    var s := SectionOf(doc, id, p);
    if Visible(doc, p, SectionEnd(doc, p)) {
      ComposedReadsBack(doc, id);
    } else {
      CutKeepsHeading(doc, p, SectionEnd(doc, p));
      NotPrintedIsNotRead(RStrip(HardRules(doc).value), s, id);
    }
  }

  lemma NotPrintedIsNotRead(rules: string, section: string, id: string)
    requires NoHeadingOf(rules, id) && OnlyHeading(section) && !HeadingAt(section, 0)
    ensures PacketText(Print(rules, section), id) == None
  {
    var first := FirstHeading(Print(rules, section), id, 0);
    FirstIsSection(rules, section, id);
    if first.Some? && first.value > Offset(rules) {
      NoHeadingAfter(rules, section, first.value);
    }
  }

  lemma HeadKeeps(s: string)
    requires s != "" && !IsSpace(s[0])
    ensures Strip(s) == RStrip(s) && Strip(RStrip(s)) == RStrip(s)
  {
    StripReaches(s, 0);
    RStripped(s);
    StrippedStays(RStrip(s));
  }

  lemma TailStrips(tail: string)
    requires tail != "" && tail[0] == '#'
    ensures RStrip(tail) != "" && Stripped(RStrip(tail))
    ensures Strip(tail) == RStrip(tail) && Strip(RStrip(tail)) == RStrip(tail)
  {
    HeadKeeps(tail);
    RStripped(tail);
    StripReaches(tail, 0);
  }

  lemma OpensWithMark(s: string, p: nat)
    requires HeadingAt(s, p)
    ensures p < |s| && s[p] == '#'
  {
  }

  lemma BodyIs(text: string)
    requires PacketBody(text).Some?
    ensures NextHeading(text, 0).Some?
    ensures var p := NextHeading(text, 0).value;
            PacketBody(text).value == (IdAt(text, p), Strip(text[p..|text|])) && text[p] == '#'
  {
    OpensWithMark(text, NextHeading(text, 0).value);
  }

  lemma BodyOf(text: string)
    requires PacketBody(text).Some?
    ensures var (id, body) := PacketBody(text).value;
            var p := NextHeading(text, 0).value;
            && body != "" && Stripped(body) && Strip(body) == body
            && (HeadingOf(body, 0, id) <==> Visible(text, p, |text|))
  {
    BodyIs(text);
    var p := NextHeading(text, 0).value;
    TailStrips(text[p..|text|]);
    CutKeepsHeading(text, p, |text|);
  }

  /** A packet brief carries the rules over unchanged. It carries the drafted body over unchanged
      exactly when the body is one section (something visible follows its number, and it holds no
      second packet heading and no phase heading) or, where the rules hold a heading of the packet,
      exactly when the body is what the rules say of it. */
  lemma PacketBriefReadsBack(umbrella: string, text: string)
    requires HardRules(umbrella).Some? && PacketBody(text).Some?
    ensures var rules := HardRules(umbrella).value;
            var (id, body) := PacketBody(text).value;
            var brief, p := PacketBrief(rules, body), NextHeading(text, 0).value;
            && HardRules(brief) == Some(rules)
            && (PacketText(brief, id) == Some(body + "\n") <==>
                  match FirstHeading(RStrip(rules), id, 0)
                  case Some(q) => body == RulesCut(RStrip(rules), q)
                  case None => Visible(text, p, |text|) && OnlyHeading(body) && NoPhase(body))
  {
    RulesOf(umbrella);
    BodyOf(text);
    PrintedIsReadExactly(RStrip(HardRules(umbrella).value), PacketBody(text).value.1, PacketBody(text).value.0);
  }

  // ----- A document whose composed brief says something else -----------------------------

  /** Rules that end in a packet, and the section of that packet in a document closed behind them. */
  const Twice := RulesHeading + "\n#### A1. x"
  const Once := "#### A1. x\n---"

  lemma TwiceChars(doc: string)
    requires doc == Twice + "\n---"
    ensures |doc| == 31 && doc[..27] == Twice && (forall k :: 0 <= k < 16 ==> doc[k] == RulesHeading[k])
    ensures doc[16] == '\n' && doc[17] == '#' && doc[18] == '#' && doc[19] == '#' && doc[20] == '#' && doc[21] == ' '
    ensures doc[22] == 'A' && doc[23] == '1' && doc[24] == '.' && doc[25] == ' ' && doc[26] == 'x'
    ensures doc[27] == '\n' && doc[28] == '-' && doc[29] == '-' && doc[30] == '-'
    ensures doc[17..] == Once && doc[22..24] == "A1"
  {
    assert |RulesHeading| == 16 && |Twice| == 27;
  }

  lemma BreaksOfTwice(doc: string, k: nat)
    requires doc == Twice + "\n---" && k < |doc| && doc[k] == '\n'
    ensures k == 16 || k == 27
  {
    TwiceChars(doc);
    assert forall i :: 0 <= i < 16 ==> RulesHeading[i] != '\n';
  }

  /** The document, and its rules alone, have one heading, and no phase behind it. */
  lemma HeadingOfTwice(doc: string, s: string, id: string)
    requires doc == Twice + "\n---" && (s == doc || s == Twice) && id == "A1"
    ensures HeadingOf(s, 17, id) && (forall q :: HeadingAt(s, q) ==> q == 17) && forall k :: !OccursAt(s, Phase, k)
  {
    TwiceChars(doc);
    assert forall k :: 0 <= k < |s| ==> s[k] == doc[k];
    assert Digits(s, 24) == 0 && Digits(s, 23) == 1;
    assert IdAt(s, 17) == s[22..24];
    assert s[2] == RulesHeading[2] == ' ';
    forall q: nat | HeadingAt(s, q) ensures q == 17 {
      if q > 0 {
        BreaksOfTwice(doc, q - 1);
      }
    }
    forall k: nat ensures !OccursAt(s, Phase, k) {
      PhaseChars(s, k);
      if k + 4 <= |s| && s[k] == '\n' {
        BreaksOfTwice(doc, k);
      }
    }
  }

  lemma RulesOfTwice(doc: string)
    requires doc == Twice + "\n---"
    ensures HardRules(doc) == Some(Twice + "\n")
  {
    TwiceChars(doc);
    assert doc[0..16] == RulesHeading;
    FindIs(doc, RulesHeading, 0, 0);
    forall k: nat | k <= 27 ensures OccursAt(doc, RulesEnd, k) <==> k == 27 {
      EndChars(doc, k);
      if k < 27 && doc[k] == '\n' {
        BreaksOfTwice(doc, k);
      }
    }
    FindIs(doc, RulesEnd, 0, 27);
    assert doc[0..27] == Twice;
    assert Twice[26] == doc[26];
    StrippedStays(Twice);
  }

  lemma SectionOfTwice(doc: string, s: string, id: string)
    requires doc == Twice + "\n---" && (s == doc || s == Twice) && id == "A1"
    ensures FirstHeading(s, id, 0) == Some(17) && 17 < |s| && SectionEnd(s, 17) == |s|
  {
    HeadingOfTwice(doc, s, id);
  }

  lemma HeadingOfOnce(doc: string, id: string)
    requires doc == Twice + "\n---" && id == "A1"
    ensures HeadingAt(Once, 0) && Stripped(Once)
  {
    TwiceChars(doc);
    HeadingOfTwice(doc, doc, id);
    assert forall k :: 17 <= k < |doc| ==> Once[k - 17] == doc[k];
    assert Digits(doc, 23) == 1;
    SameHeading(doc, 17, Once, 0);
  }

  lemma ReadOfTwice(doc: string, id: string, section: string)
    requires doc == Twice + "\n---" && id == "A1" && section == Once
    ensures PacketText(doc, id) == Some(section + "\n")
  {
    TwiceChars(doc);
    SectionOfTwice(doc, doc, id);
    PacketTextIs(doc, id, 17);
    assert doc[17..31] == section;
    HeadingOfOnce(doc, id);
    StrippedStays(section);
  }

  /** A heading of the packet inside the rules is found first: the brief that is composed of this
      document holds the section, and another one is read out of it. */
  lemma HeadingInTheRulesIsFoundFirst(doc: string, id: string, rules: string, section: string, cut: string)
    requires doc == Twice + "\n---" && id == "A1" && rules == Twice && section == Once && cut == "#### A1. x\n\n---"
    ensures ComposedBrief(doc, id) == Success(Print(rules, section))
    ensures PacketText(doc, id) == Some(section + "\n")
    ensures PacketText(Print(rules, section), id) == Some(cut + "\n") && cut != section
  {
    ReadOfTwice(doc, id, section);
    ComposedOfTwice(doc, id, rules, section);
    RulesOfPrint(doc, rules, section, id, 17, cut);
    Differ(section, cut);
  }

  lemma ComposedOfTwice(doc: string, id: string, rules: string, section: string)
    requires doc == Twice + "\n---" && rules == Twice && PacketText(doc, id) == Some(section + "\n")
    ensures ComposedBrief(doc, id) == Success(Print(rules, section))
  {
    RulesOfTwice(doc);
    CheckedIsCut(doc);
    TwiceIsRules(doc);
    Regrouped(rules, Closing, section);
  }

  lemma CutIsRead(rules: string, section: string, id: string, q: nat, cut: string)
    requires Rules(rules) && Stripped(section) && HeadingAt(section, 0) && FirstHeading(rules, id, 0) == Some(q)
    requires q < |rules| && RulesCut(rules, q) == cut
    ensures PacketText(Print(rules, section), id) == Some(cut + "\n")
  {
    RulesAreReadFirst(rules, section, id, q);
  }

  lemma RulesOfPrint(doc: string, rules: string, section: string, id: string, q: nat, cut: string)
    requires doc == Twice + "\n---" && id == "A1" && rules == Twice && section == Once && q == 17 && cut == "#### A1. x\n\n---"
    ensures PacketText(Print(rules, section), id) == Some(cut + "\n")
  {
    TwiceIsRules(doc);
    HeadingOfOnce(doc, id);
    SectionOfTwice(doc, rules, id);
    CutOfTwice(doc, id, rules, q, cut);
    CutIsRead(rules, section, id, q, cut);
  }

  lemma Differ(section: string, cut: string)
    requires section == Once && cut == "#### A1. x\n\n---"
    ensures cut != section
  {
    assert |section| == 14 && |cut| == 15;
  }

  lemma TwiceIsRules(doc: string)
    requires doc == Twice + "\n---"
    ensures Rules(Twice) && RStrip(Twice + "\n") == Twice
  {
    TwiceChars(doc);
    assert Twice[26] == doc[26];
    StrippedStays(Twice);
    RulesOfTwice(doc);
    RulesOf(doc);
  }

  lemma CutOfTwice(doc: string, id: string, rules: string, q: nat, cut: string)
    requires doc == Twice + "\n---" && id == "A1" && rules == Twice && q == 17 && cut == "#### A1. x\n\n---"
    ensures q < |rules| && RulesCut(rules, q) == cut
  {
    TwiceChars(doc);
    SectionOfTwice(doc, rules, id);
    assert rules[q..] == "#### A1. x";
  }
}
