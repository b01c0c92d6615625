/** The section splice of the evaluation document (src/inference_grid/evaluation.py): one section
    of a text is found by its heading, taken out, or replaced. */
module SectionSplice {
  import opened Wrappers

  // ----- str.splitlines(keepends=True) ---------------------------------------------------

  predicate Break(c: char) {
    c in {'\n', '\r', '\U{0B}', '\U{0C}', '\U{1C}', '\U{1D}', '\U{1E}', '\U{85}', '\U{2028}', '\U{2029}'}
  }

  /** The length of the first line with its break; a carriage return and a newline are one. */
  function FirstLine(text: string): (n: nat)
    requires text != ""
    ensures 1 <= n <= |text|
  {
    if text[0] == '\r' && |text| > 1 && text[1] == '\n' then 2
    else if Break(text[0]) || |text| == 1 then 1
    else 1 + FirstLine(text[1..])
  }

  function Lines(text: string): seq<string>
    decreases |text|
  {
    if text == "" then [] else [text[..FirstLine(text)]] + Lines(text[FirstLine(text)..])
  }

  function Join(lines: seq<string>): string {
    if lines == [] then "" else lines[0] + Join(lines[1..])
  }

  /** The next line may follow: this one is broken off, and not in the middle of a break. */
  predicate Breaks(line: string, next: string) {
    line != "" && Break(line[|line| - 1]) && !(line[|line| - 1] == '\r' && next != "" && next[0] == '\n')
  }

  predicate OneLine(line: string) {
    line != "" && FirstLine(line) == |line|
  }

  /** What a list of lines of some text is like. */
  predicate AreLines(lines: seq<string>) {
    && (forall i :: 0 <= i < |lines| ==> OneLine(lines[i]))
    && (forall i :: 0 <= i < |lines| - 1 ==> Breaks(lines[i], lines[i + 1]))
  }

  lemma {:induction false} FirstLineOf(line: string, rest: string)
    requires OneLine(line) && (rest == "" || Breaks(line, rest))
    ensures line + rest != "" && FirstLine(line + rest) == |line|
    decreases |line|
  {
    if |line| > 1 && !(line[0] == '\r' && line[1] == '\n') {
      assert (line + rest)[1..] == line[1..] + rest;
      FirstLineOf(line[1..], rest);
    }
  }

  lemma {:induction false} LinesJoin(lines: seq<string>)
    requires AreLines(lines)
    ensures Lines(Join(lines)) == lines
  {
    if lines != [] {
      var rest := Join(lines[1..]);
      assert rest != "" ==> |lines| > 1 && rest[0] == lines[1][0] by {
        if lines[1..] != [] {
          assert OneLine(lines[1]);
        }
      }
      FirstLineOf(lines[0], rest);
      assert (lines[0] + rest)[..|lines[0]|] == lines[0] && (lines[0] + rest)[|lines[0]|..] == rest;
      LinesJoin(lines[1..]);
    }
  }

  lemma {:induction false} FirstLineIsOne(text: string)
    requires text != ""
    ensures OneLine(text[..FirstLine(text)])
    ensures FirstLine(text) < |text| ==> Breaks(text[..FirstLine(text)], text[FirstLine(text)..])
  {
    if !(text[0] == '\r' && |text| > 1 && text[1] == '\n') && !Break(text[0]) && |text| > 1 {
      FirstLineIsOne(text[1..]);
      var n := FirstLine(text);
      assert text[..n][1..] == text[1..][..n - 1] && text[n..] == text[1..][n - 1..];
    }
  }

  lemma {:induction false} LinesAreLines(text: string)
    ensures AreLines(Lines(text)) && Join(Lines(text)) == text
    decreases |text|
  {
    if text != "" {
      var n := FirstLine(text);
      FirstLineIsOne(text);
      LinesAreLines(text[n..]);
      var rest := Lines(text[n..]);
      assert rest != [] ==> rest[0][0] == text[n..][0] by {
        if text[n..] != "" {
          assert OneLine(rest[0]);
        }
      }
      assert Lines(text)[1..] == rest;
      forall i | 0 <= i < |Lines(text)| - 1 ensures Breaks(Lines(text)[i], Lines(text)[i + 1]) {
        assert i > 0 ==> Lines(text)[i] == rest[i - 1] && Lines(text)[i + 1] == rest[i];
      }
    }
  }

  lemma {:induction false} JoinSplit(a: seq<string>, b: seq<string>)
    ensures Join(a + b) == Join(a) + Join(b)
  {
    if a == [] {
      assert a + b == b;
    } else {
      assert (a + b)[1..] == a[1..] + b;
      JoinSplit(a[1..], b);
    }
  }

  // ----- Sections ------------------------------------------------------------------------

  /** `rstrip("\n")`. */
  function Chomp(line: string): string {
    if line != "" && line[|line| - 1] == '\n' then Chomp(line[..|line| - 1]) else line
  }

  predicate IsHeading(line: string, heading: string) {
    Chomp(line) == heading
  }

  function Hashes(heading: string): nat {
    if heading != "" && heading[0] == '#' then 1 + Hashes(heading[1..]) else 0
  }

  /** What a line that ends the section starts with. */
  function Level(heading: string): (level: string) {
    seq(Hashes(heading), _ => '#') + " "
  }

  predicate Ends(line: string, heading: string) {
    Level(heading) <= line
  }

  /** The section's first line and the line after its last, if the heading is there. */
  predicate AreBounds(lines: seq<string>, heading: string, bounds: Option<(nat, nat)>) {
    match bounds
    case None => forall i :: 0 <= i < |lines| ==> !IsHeading(lines[i], heading)
    case Some((start, end)) =>
      && start < end <= |lines|
      && IsHeading(lines[start], heading) && (forall i :: 0 <= i < start ==> !IsHeading(lines[i], heading))
      && (forall i :: start < i < end ==> !Ends(lines[i], heading))
      && (end < |lines| ==> Ends(lines[end], heading))
  }

  function Start(lines: seq<string>, heading: string, i: nat): (k: nat)
    requires i <= |lines|
    ensures i <= k <= |lines| && forall j :: i <= j < k ==> !IsHeading(lines[j], heading)
    ensures k < |lines| ==> IsHeading(lines[k], heading)
    decreases |lines| - i
  {
    if i == |lines| || IsHeading(lines[i], heading) then i else Start(lines, heading, i + 1)
  }

  function End(lines: seq<string>, heading: string, i: nat): (k: nat)
    requires i <= |lines|
    ensures i <= k <= |lines| && forall j :: i <= j < k ==> !Ends(lines[j], heading)
    ensures k < |lines| ==> Ends(lines[k], heading)
    decreases |lines| - i
  {
    if i == |lines| || Ends(lines[i], heading) then i else End(lines, heading, i + 1)
  }

  function Bounds(lines: seq<string>, heading: string): (bounds: Option<(nat, nat)>)
    ensures AreBounds(lines, heading, bounds)
  {
    var start := Start(lines, heading, 0);
    if start == |lines| then None else Some((start, End(lines, heading, start + 1)))
  }

  lemma BoundsAreUnique(lines: seq<string>, heading: string, a: Option<(nat, nat)>, b: Option<(nat, nat)>)
    requires AreBounds(lines, heading, a) && AreBounds(lines, heading, b)
    ensures a == b
  {
  }

  method SectionBounds(lines: seq<string>, heading: string) returns (bounds: Option<(nat, nat)>)
    ensures bounds == Bounds(lines, heading)
  {
    var start := 0;
    while start < |lines| && Chomp(lines[start]) != heading
      invariant start <= |lines| && forall i :: 0 <= i < start ==> !IsHeading(lines[i], heading)
    {
      start := start + 1;
    }
    if start == |lines| { return None; }
    var end := start + 1;
    while end < |lines| && !(Level(heading) <= lines[end])
      invariant start < end <= |lines| && forall i :: start < i < end ==> !Ends(lines[i], heading)
    {
      end := end + 1;
    }
    BoundsAreUnique(lines, heading, Some((start, end)), Bounds(lines, heading));
    return Some((start, end));
  }

  function Extracted(document: string, heading: string): Option<string> {
    var lines := Lines(document);
    match Bounds(lines, heading) case None => None case Some((start, end)) => Some(Join(lines[start..end]))
  }

  predicate EndsInNewline(text: string) {
    text != "" && text[|text| - 1] == '\n'
  }

  /** What precedes a section that is appended. */
  function Paragraph(existing: string): string {
    (if EndsInNewline(existing) then existing else existing + "\n") + "\n"
  }

  function Replaced(existing: string, heading: string, section: string): string {
    var lines := Lines(existing);
    match Bounds(lines, heading)
    case None => Paragraph(existing) + section
    case Some((start, end)) => Join(lines[..start]) + section + Join(lines[end..])
  }

  method ExtractSection(document: string, heading: string) returns (section: Option<string>)
    ensures section == Extracted(document, heading)
  {
    var lines := Lines(document);
    var bounds := SectionBounds(lines, heading);
    match bounds
    case None => section := None;
    case Some((start, end)) => section := Some(Join(lines[start..end]));
  }

  method ReplaceSection(existing: string, heading: string, section: string) returns (text: string)
    ensures text == Replaced(existing, heading, section)
  {
    var lines := Lines(existing);
    var bounds := SectionBounds(lines, heading);
    match bounds
    case None =>
      var base := if EndsInNewline(existing) then existing else existing + "\n";
      text := base + "\n" + section;
    case Some((start, end)) => text := Join(lines[..start]) + section + Join(lines[end..]);
  }

  // ----- The laws ------------------------------------------------------------------------

  /** The section opens with its heading and holds no second heading of its level. */
  predicate IsSection(section: string, heading: string) {
    var lines := Lines(section);
    && lines != [] && IsHeading(lines[0], heading)
    && forall i :: 0 < i < |lines| ==> !Ends(lines[i], heading)
  }

  /** Lines around a place for a section: no heading before it, and what follows ends it. */
  predicate Frames(before: seq<string>, after: seq<string>, heading: string) {
    && AreLines(before) && AreLines(after)
    && (forall i :: 0 <= i < |before| ==> !IsHeading(before[i], heading))
    && (after != [] ==> Ends(after[0], heading))
  }

  /** The section fits between the lines: it is read back as its own lines. */
  predicate Fits(before: seq<string>, section: string, after: seq<string>) {
    && (before != [] ==> Breaks(before[|before| - 1], section))
    && (after != [] ==> Breaks(section, after[0]))
  }

  /** Nothing follows the section, or its last character breaks its last line off. */
  predicate Closes(section: string, after: seq<string>) {
    after == [] || (section != "" && Break(section[|section| - 1]))
  }

  lemma {:induction false} LastLine(text: string)
    requires text != ""
    ensures Lines(text) != [] && var last := Lines(text)[|Lines(text)| - 1]; last != "" && last[|last| - 1] == text[|text| - 1]
    decreases |text|
  {
    var n := FirstLine(text);
    if n < |text| {
      LastLine(text[n..]);
    }
  }

  lemma Glued(a: seq<string>, b: seq<string>)
    requires AreLines(a) && AreLines(b) && (a != [] && b != [] ==> Breaks(a[|a| - 1], b[0]))
    ensures AreLines(a + b)
  {
    forall i | 0 <= i < |a + b| - 1 ensures Breaks((a + b)[i], (a + b)[i + 1]) {
      if i >= |a| {
        assert (a + b)[i] == b[i - |a|] && (a + b)[i + 1] == b[i + 1 - |a|];
      }
    }
  }

  lemma BreaksAlike(line: string, next: string, other: string)
    requires Breaks(line, next) && next != "" && other != "" && next[0] == other[0]
    ensures Breaks(line, other)
  {
  }

  lemma SplicedAreLines(before: seq<string>, section: string, after: seq<string>)
    requires AreLines(before) && AreLines(after) && section != "" && Fits(before, section, after)
    ensures AreLines(before + Lines(section) + after)
  {
    var mine := Lines(section);
    LinesAreLines(section);
    FirstLineIsOne(section);
    LastLine(section);
    if before != [] {
      BreaksAlike(before[|before| - 1], section, mine[0]);
    }
    Glued(before, mine);
    assert after != [] ==> OneLine(after[0]) && Breaks(mine[|mine| - 1], after[0]);
    Glued(before + mine, after);
  }

  lemma SplicedLines(before: seq<string>, section: string, after: seq<string>)
    requires AreLines(before) && AreLines(after) && section != "" && Fits(before, section, after)
    ensures Lines(Join(before) + section + Join(after)) == before + Lines(section) + after
  {
    var mine := Lines(section);
    SplicedAreLines(before, section, after);
    LinesJoin(before + mine + after);
    JoinSplit(before + mine, after);
    JoinSplit(before, mine);
    LinesAreLines(section);
  }

  lemma SplicedAreBounds(before: seq<string>, mine: seq<string>, after: seq<string>, heading: string)
    requires (forall i :: 0 <= i < |before| ==> !IsHeading(before[i], heading)) && (after != [] ==> Ends(after[0], heading))
    requires mine != [] && IsHeading(mine[0], heading) && forall i :: 0 < i < |mine| ==> !Ends(mine[i], heading)
    ensures AreBounds(before + mine + after, heading, Some((|before|, |before| + |mine|)))
  {
    var all := before + mine + after;
    assert all[|before|] == mine[0];
    forall i | |before| < i < |before| + |mine| ensures !Ends(all[i], heading) {
      assert all[i] == mine[i - |before|];
    }
  }

  /** A spliced text has the section as its section, and the lines around it around it. */
  lemma SplicedBounds(before: seq<string>, section: string, after: seq<string>, heading: string)
    requires Frames(before, after, heading) && Fits(before, section, after) && IsSection(section, heading)
    ensures Lines(Join(before) + section + Join(after)) == before + Lines(section) + after
    ensures AreBounds(before + Lines(section) + after, heading, Some((|before|, |before| + |Lines(section)|)))
  {
    SplicedLines(before, section, after);
    SplicedAreBounds(before, Lines(section), after, heading);
  }

  /** What is spliced in is what is read out, and what is spliced again replaces it alone. */
  lemma SplicedIsSection(before: seq<string>, section: string, after: seq<string>, heading: string, again: string)
    requires Frames(before, after, heading) && Fits(before, section, after) && IsSection(section, heading)
    ensures Extracted(Join(before) + section + Join(after), heading) == Some(section)
    ensures Replaced(Join(before) + section + Join(after), heading, again) == Join(before) + again + Join(after)
  {
    SplicedBounds(before, section, after, heading);
    var mine := Lines(section);
    var all := before + mine + after;
    BoundsAreUnique(all, heading, Bounds(all, heading), Some((|before|, |before| + |mine|)));
    LinesAreLines(section);
    assert all[|before|..|before| + |mine|] == mine;
    assert all[..|before|] == before && all[|before| + |mine|..] == after;
  }

  // ----- The text that is given ----------------------------------------------------------

  lemma PartsAreLines(lines: seq<string>, start: nat, end: nat)
    requires AreLines(lines) && start <= end <= |lines|
    ensures AreLines(lines[..start]) && AreLines(lines[end..]) && AreLines(lines[start..end])
  {
    forall i | 0 <= i < |lines[end..]| - 1 ensures Breaks(lines[end..][i], lines[end..][i + 1]) {
      assert lines[end..][i] == lines[end + i] && lines[end..][i + 1] == lines[end + i + 1];
    }
    forall i | 0 <= i < |lines[start..end]| - 1 ensures Breaks(lines[start..end][i], lines[start..end][i + 1]) {
      assert lines[start..end][i] == lines[start + i] && lines[start..end][i + 1] == lines[start + i + 1];
    }
  }

  lemma ChompsToEmpty(line: string)
    requires OneLine(line) && line[0] == '\n'
    ensures line == "\n" && Chomp(line) == ""
  {
    assert line[..0] == "";
  }

  /** A line whose only break is a newline chomps to nothing when it is nothing else. */
  lemma HeadingStart(line: string, other: string, heading: string)
    requires OneLine(line) && OneLine(other) && IsHeading(line, heading) && IsHeading(other, heading)
    ensures line[0] == '\n' ==> other[0] == '\n'
  {
    if line[0] == '\n' {
      ChompsToEmpty(line);
      if other[0] != '\n' {
        ChompKeepsFirst(other);
      }
    }
  }

  lemma {:induction false} ChompKeepsFirst(line: string)
    requires line != "" && line[0] != '\n'
    ensures Chomp(line) != ""
    decreases |line|
  {
    if line[|line| - 1] == '\n' {
      ChompKeepsFirst(line[..|line| - 1]);
    }
  }

  /** A line that ends a section starts with a visible character or a space. */
  lemma EndsOpens(line: string, heading: string)
    requires Ends(line, heading)
    ensures line != "" && line[0] != '\n' && Chomp(line) != ""
  {
    assert Level(heading)[0] == line[0];
    ChompKeepsFirst(line);
  }

  /** Around the section of a heading the text is a frame, and any section of it can follow. */
  lemma FrameBreaks(existing: string, heading: string, start: nat, end: nat, section: string)
    requires AreBounds(Lines(existing), heading, Some((start, end))) && IsSection(section, heading)
    ensures var lines := Lines(existing);
            && section != "" && Frames(lines[..start], lines[end..], heading)
            && (start > 0 ==> Breaks(lines[start - 1], section))
  {
    var lines := Lines(existing);
    LinesAreLines(existing);
    LinesAreLines(section);
    PartsAreLines(lines, start, end);
    assert OneLine(lines[start]) && OneLine(Lines(section)[0]);
    FirstLineIsOne(section);
    assert Lines(section)[0][0] == section[0];
    HeadingStart(Lines(section)[0], lines[start], heading);
    assert start > 0 ==> Breaks(lines[start - 1], lines[start]);
  }

  /** Where the heading is in the text, the text around its section is a frame for another. */
  lemma FoundFrame(existing: string, heading: string, start: nat, end: nat, section: string)
    requires AreBounds(Lines(existing), heading, Some((start, end))) && IsSection(section, heading)
    requires Closes(section, Lines(existing)[end..])
    ensures var lines := Lines(existing);
            Frames(lines[..start], lines[end..], heading) && Fits(lines[..start], section, lines[end..])
  {
    FrameBreaks(existing, heading, start, end, section);
    if end < |Lines(existing)| {
      EndsOpens(Lines(existing)[end], heading);
    }
  }

  lemma {:induction false} SameHeadingLonger(line: string)
    ensures Chomp(line + "\n") == Chomp(line)
  {
    assert (line + "\n")[..|line|] == line;
  }

  lemma LinesOfNewline()
    ensures Lines("\n") == ["\n"] && Chomp("\n") == ""
  {
    assert OneLine("\n") && ["\n"][1..] == [] && Join(["\n"]) == "\n" && "\n"[..0] == "";
    LinesJoin(["\n"]);
  }

  lemma {:induction false} FirstLineCompleted(text: string)
    requires text != ""
    ensures var n, m := FirstLine(text), FirstLine(text + "\n");
            m == n || (n == |text| && m == n + 1 && !EndsInNewline(text))
    decreases |text|
  {
    if |text| > 1 && !(text[0] == '\r' && text[1] == '\n') && !Break(text[0]) {
      assert (text + "\n")[1..] == text[1..] + "\n";
      FirstLineCompleted(text[1..]);
    } else if |text| == 1 && !Break(text[0]) {
      assert (text + "\n")[1..] == "\n";
    }
  }

  /** One more newline is a line of its own, or completes the last line. */
  predicate OneMoreLine(lines: seq<string>, lines': seq<string>) {
    lines' == lines + ["\n"]
  }

  predicate LastCompleted(lines: seq<string>, lines': seq<string>) {
    lines != [] && lines' == lines[..|lines| - 1] + [lines[|lines| - 1] + "\n"]
  }

  lemma {:induction false} LinesPlusNewline(text: string)
    ensures OneMoreLine(Lines(text), Lines(text + "\n")) || LastCompleted(Lines(text), Lines(text + "\n"))
    ensures EndsInNewline(text) ==> OneMoreLine(Lines(text), Lines(text + "\n"))
    decreases |text|
  {
    LinesOfNewline();
    if text == "" {
      assert text + "\n" == "\n";
    } else {
      var n, m := FirstLine(text), FirstLine(text + "\n");
      FirstLineCompleted(text);
      if m == n {
        assert (text + "\n")[..n] == text[..n] && (text + "\n")[n..] == text[n..] + "\n";
        LinesPlusNewline(text[n..]);
        assert n < |text| ==> (EndsInNewline(text[n..]) <==> EndsInNewline(text));
        OneMoreInFront(text[..n], Lines(text[n..]), Lines(text[n..] + "\n"));
      } else {
        assert (text + "\n")[..m] == text[..n] + "\n" && (text + "\n")[m..] == "";
        assert text[n..] == "" && Lines(text) == [text[..n]];
        assert Lines(text + "\n") == [text[..n] + "\n"];
      }
    }
  }

  lemma OneMoreInFront(first: string, lines: seq<string>, lines': seq<string>)
    ensures OneMoreLine(lines, lines') ==> OneMoreLine([first] + lines, [first] + lines')
    ensures LastCompleted(lines, lines') ==> LastCompleted([first] + lines, [first] + lines')
  {
    if LastCompleted(lines, lines') {
      assert ([first] + lines)[..|lines|] == [first] + lines[..|lines| - 1];
    }
  }

  /** A newline more makes no heading but the empty one. */
  lemma LinesCompleted(text: string, heading: string)
    requires heading != "" && forall i :: 0 <= i < |Lines(text)| ==> !IsHeading(Lines(text)[i], heading)
    ensures forall i :: 0 <= i < |Lines(text + "\n")| ==> !IsHeading(Lines(text + "\n")[i], heading)
  {
    LinesOfNewline();
    LinesPlusNewline(text);
    var lines := Lines(text);
    if LastCompleted(lines, Lines(text + "\n")) {
      SameHeadingLonger(lines[|lines| - 1]);
    }
  }

  /** Where the heading is not in the text, the text with the two newlines is a frame. */
  lemma AppendFrame(existing: string, heading: string, section: string)
    requires heading != "" && AreBounds(Lines(existing), heading, None) && IsSection(section, heading)
    ensures Frames(Lines(Paragraph(existing)), [], heading) && Fits(Lines(Paragraph(existing)), section, [])
    ensures Join(Lines(Paragraph(existing))) == Paragraph(existing)
  {
    var p := Paragraph(existing);
    LinesAreLines(p);
    LastLine(p);
    if EndsInNewline(existing) {
      LinesCompleted(existing, heading);
    } else {
      LinesCompleted(existing, heading);
      LinesCompleted(existing + "\n", heading);
    }
  }

  /** The frame a section of the text is spliced into. */
  function Frame(existing: string, heading: string): (seq<string>, seq<string>) {
    var lines := Lines(existing);
    match Bounds(lines, heading)
    case None => (Lines(Paragraph(existing)), [])
    case Some((start, end)) => (lines[..start], lines[end..])
  }

  predicate Present(existing: string, heading: string) {
    Bounds(Lines(existing), heading).Some?
  }

  lemma ReplacedIsSpliced(existing: string, heading: string, section: string)
    requires IsSection(section, heading) && (heading != "" || Present(existing, heading))
    requires Closes(section, Frame(existing, heading).1)
    ensures var (before, after) := Frame(existing, heading);
            && Frames(before, after, heading) && Fits(before, section, after)
            && forall other :: Replaced(existing, heading, other) == Join(before) + other + Join(after)
  {
    match Bounds(Lines(existing), heading)
    case None =>
      AppendFrame(existing, heading, section);
      forall other ensures Replaced(existing, heading, other) == Join(Lines(Paragraph(existing))) + other + Join([]) {
        assert Paragraph(existing) + other + "" == Paragraph(existing) + other;
      }
    case Some((start, end)) => FoundFrame(existing, heading, start, end, section);
  }

  /** Reading back what was spliced in gives it unchanged. The section opens with its heading and
      holds no second heading of its level; its last line is broken off, or nothing follows it. */
  lemma ExtractAfterReplace(existing: string, heading: string, section: string)
    requires IsSection(section, heading) && (heading != "" || Present(existing, heading))
    requires Closes(section, Frame(existing, heading).1)
    ensures Extracted(Replaced(existing, heading, section), heading) == Some(section)
  {
    ReplacedIsSpliced(existing, heading, section);
    var (before, after) := Frame(existing, heading);
    SplicedIsSection(before, section, after, heading, section);
  }

  /** The lines before an appended section: blank ones at the end, and no blank one before. */
  predicate BlankFrom(lines: seq<string>, start: nat) {
    && start < |lines|
    && (forall i :: 0 <= i < start ==> !IsHeading(lines[i], ""))
    && (forall i :: start <= i < |lines| ==> lines[i] == "\n")
  }

  lemma ParagraphEndsBlank(existing: string) returns (start: nat)
    requires !Present(existing, "")
    ensures BlankFrom(Lines(Paragraph(existing)), start)
  {
    var lines := Lines(existing);
    if EndsInNewline(existing) {
      LinesPlusNewline(existing);
      return |lines|;
    }
    LinesPlusNewline(existing);
    LinesPlusNewline(existing + "\n");
    if OneMoreLine(lines, Lines(existing + "\n")) {
      return |lines|;
    }
    SameHeadingLonger(lines[|lines| - 1]);
    return |lines|;
  }

  lemma {:induction false} ChompedAway(line: string)
    requires Chomp(line) == "" && line != ""
    ensures line[0] == '\n'
  {
    if line[0] != '\n' {
      ChompKeepsFirst(line);
    }
  }

  /** From the first blank line on an appended section opened by a blank line runs to the end. */
  lemma BlankBounds(before: seq<string>, start: nat, mine: seq<string>)
    requires BlankFrom(before, start) && mine != [] && mine[0] == "\n" && forall i :: 0 < i < |mine| ==> !Ends(mine[i], "")
    ensures AreBounds(before + mine, "", Some((start, |before + mine|)))
  {
    LinesOfNewline();
    var all := before + mine;
    assert Level("") == " ";
    forall i | start < i < |all| ensures !Ends(all[i], "") {
      assert i >= |before| ==> all[i] == mine[i - |before|];
    }
  }

  /** The empty heading, where it is not there, is not read back: the empty lines put before the
      section are taken for its own. */
  lemma EmptyHeadingIsLost(existing: string, section: string)
    requires IsSection(section, "") && !Present(existing, "")
    ensures Extracted(Replaced(existing, "", section), "") != Some(section)
  {
    var before, mine := Lines(Paragraph(existing)), Lines(section);
    var start := ParagraphEndsBlank(existing);
    OpensBlank(section);
    AppendedLines(existing, section);
    var all := before + mine;
    BlankBounds(before, start, mine);
    BoundsAreUnique(all, "", Bounds(all, ""), Some((start, |all|)));
    assert all[start..|all|] == before[start..] + mine;
    LongerByBlanks(before[start..], section);
  }

  lemma OpensBlank(section: string)
    requires IsSection(section, "")
    ensures Lines(section)[0] == "\n" && section != ""
  {
    LinesAreLines(section);
    assert OneLine(Lines(section)[0]);
    ChompedAway(Lines(section)[0]);
    ChompsToEmpty(Lines(section)[0]);
  }

  lemma LongerByBlanks(blanks: seq<string>, section: string)
    requires blanks != [] && blanks[0] == "\n"
    ensures |Join(blanks + Lines(section))| > |section|
  {
    LinesAreLines(section);
    JoinSplit(blanks, Lines(section));
  }

  lemma AppendedLines(existing: string, section: string)
    requires section != ""
    ensures Lines(Paragraph(existing) + section) == Lines(Paragraph(existing)) + Lines(section)
  {
    var before := Lines(Paragraph(existing));
    LinesAreLines(Paragraph(existing));
    LastLine(Paragraph(existing));
    SplicedLines(before, section, []);
    assert Join(before) + section + "" == Paragraph(existing) + section;
    assert before + Lines(section) + [] == before + Lines(section);
  }

  lemma LinesOfOne(a: string)
    requires OneLine(a)
    ensures Lines(a) == [a]
  {
    assert [a][1..] == [] && a + "" == a;
    LinesJoin([a]);
  }

  // ----- A section that is not closed ----------------------------------------------------

  lemma {:induction false} OneLineLonger(line: string, next: string)
    requires OneLine(line) && !Break(line[|line| - 1]) && OneLine(next)
    ensures OneLine(line + next)
  {
    assert (line + next)[1..] == line[1..] + next;
    if |line| > 1 {
      OneLineLonger(line[1..], next);
    }
  }

  lemma {:induction false} ChompLonger(line: string, next: string)
    requires Chomp(next) != ""
    ensures Chomp(line + next) == line + Chomp(next)
    decreases |next|
  {
    if next != "" && next[|next| - 1] == '\n' {
      assert (line + next)[..|line + next| - 1] == line + next[..|next| - 1];
      ChompLonger(line, next[..|next| - 1]);
    }
  }

  /** The lines of a section that runs into a line. */
  function RunOn(mine: seq<string>, next: string): seq<string>
    requires mine != []
  {
    mine[..|mine| - 1] + [mine[|mine| - 1] + next]
  }

  lemma RunOnJoins(mine: seq<string>, next: string)
    requires mine != []
    ensures Join(RunOn(mine, next)) == Join(mine) + next
  {
    var n := |mine| - 1;
    JoinSplit(mine[..n], [mine[n] + next]);
    JoinSplit(mine[..n], [mine[n]]);
    assert mine[..n] + [mine[n]] == mine && [mine[n]][1..] == [] && [mine[n] + next][1..] == [];
    assert Join([mine[n] + next]) == mine[n] + next && Join([mine[n]]) == mine[n];
  }

  lemma RunOnAreLines(mine: seq<string>, next: string)
    requires AreLines(mine) && mine != [] && OneLine(next)
    requires !Break(mine[|mine| - 1][|mine[|mine| - 1]| - 1])
    ensures AreLines(RunOn(mine, next))
  {
    var n := |mine| - 1;
    OneLineLonger(mine[n], next);
    PartsAreLines(mine, n, n);
    assert n > 0 ==> Breaks(mine[n - 1], mine[n]);
    Glued(mine[..n], [mine[n] + next]);
  }

  lemma RunOnLines(section: string, next: string)
    requires section != "" && !Break(section[|section| - 1]) && OneLine(next)
    ensures Lines(section) != [] && Lines(section + next) == RunOn(Lines(section), next)
  {
    var mine := Lines(section);
    LinesAreLines(section);
    LastLine(section);
    RunOnAreLines(mine, next);
    RunOnJoins(mine, next);
    LinesJoin(RunOn(mine, next));
  }

  /** A section that is not closed makes one longer section with the line it runs into. */
  lemma RunOnSplices(before: seq<string>, section: string, after: seq<string>)
    requires AreLines(before) && AreLines(after) && section != "" && !Closes(section, after)
    requires before != [] ==> Breaks(before[|before| - 1], section)
    ensures Join(before) + section + Join(after) == Join(before) + (section + after[0]) + Join(after[1..])
    ensures Lines(section) != []
    ensures Lines(Join(before) + section + Join(after)) == before + RunOn(Lines(section), after[0]) + after[1..]
  {
    assert OneLine(after[0]);
    RunOnLines(section, after[0]);
    PartsAreLines(after, 1, 1);
    assert |after| > 1 ==> Breaks(after[0], after[1]);
    if before != [] {
      BreaksAlike(before[|before| - 1], section, section + after[0]);
    }
    SplicedLines(before, section + after[0], after[1..]);
    Regrouped(Join(before), section, after[0], Join(after[1..]));
  }

  lemma Regrouped(a: string, b: string, c: string, d: string)
    ensures a + b + (c + d) == a + (b + c) + d
  {
  }

  lemma LevelAt(heading: string, i: nat)
    requires i < |Level(heading)|
    ensures Level(heading)[i] == ' ' <==> i == |Level(heading)| - 1
  {
  }

  lemma PrefixAt(level: string, line: string, i: nat)
    requires level <= line && i < |level|
    ensures line[i] == level[i]
  {
  }

  /** A line that did not end the section still does not when a line that does follows it at once. */
  lemma RunOnEndsNothing(line: string, next: string, heading: string)
    requires line != "" && !Ends(line, heading) && Ends(next, heading)
    ensures !Ends(line + next, heading)
  {
    var level := Level(heading);
    var h: nat := |level| - 1;
    if |line| > h {
      assert (line + next)[..h + 1] == line[..h + 1];
    } else {
      LevelAt(heading, h);
      LevelAt(heading, h - |line|);
      PrefixAt(level, next, h - |line|);
      assert (line + next)[h] != ' ';
    }
  }

  /** The section is its bare heading, and the text's last line, the next heading of all, is it too:
      the section that is lost at its place is found there again. */
  predicate Reappears(section: string, after: seq<string>, heading: string) {
    && section == heading && |after| >= 2 && after[|after| - 1] == heading
    && forall j :: 0 < j < |after| - 1 ==> !IsHeading(after[j], heading)
  }

  lemma LongBounds(before: seq<string>, mine: seq<string>, next: string, rest: seq<string>, heading: string) returns (end: nat)
    requires (forall i :: 0 <= i < |before| ==> !IsHeading(before[i], heading)) && |mine| > 1 && IsHeading(mine[0], heading)
    requires (forall i :: 0 < i < |mine| ==> !Ends(mine[i], heading)) && Ends(next, heading) && mine[|mine| - 1] != ""
    ensures |before| + |mine| <= end <= |before + RunOn(mine, next) + rest|
    ensures AreBounds(before + RunOn(mine, next) + rest, heading, Some((|before|, end)))
  {
    var n := |mine| - 1;
    var all := before + RunOn(mine, next) + rest;
    RunOnEndsNothing(mine[n], next, heading);
    forall i | |before| < i <= |before| + n ensures !Ends(all[i], heading) {
      assert all[i] == RunOn(mine, next)[i - |before|];
    }
    assert all[|before|] == mine[0];
    end := End(all, heading, |before| + 1);
  }

  lemma TakenJoin(before: seq<string>, mine: seq<string>, rest: seq<string>, end: nat)
    requires |before| + |mine| <= end <= |before + mine + rest|
    ensures |Join((before + mine + rest)[|before|..end])| >= |Join(mine)|
  {
    var k := end - |before| - |mine|;
    assert (before + mine + rest)[|before|..end] == mine + rest[..k];
    JoinSplit(mine, rest[..k]);
  }

  /** A longer section that runs on is read with what it ran into. */
  lemma LongSectionRunsOn(before: seq<string>, section: string, after: seq<string>, heading: string)
    requires Frames(before, after, heading) && IsSection(section, heading) && |Lines(section)| > 1 && section != ""
    requires before != [] ==> Breaks(before[|before| - 1], section)
    requires !Closes(section, after)
    ensures Extracted(Join(before) + section + Join(after), heading) != Some(section)
  {
    var mine := Lines(section);
    LinesAreLines(section);
    assert OneLine(mine[|mine| - 1]);
    RunOnSplices(before, section, after);
    var all := before + RunOn(mine, after[0]) + after[1..];
    var end := LongBounds(before, mine, after[0], after[1..], heading);
    BoundsAreUnique(all, heading, Bounds(all, heading), Some((|before|, end)));
    TakenJoin(before, RunOn(mine, after[0]), after[1..], end);
    RunOnJoins(mine, after[0]);
    EndsOpens(after[0], heading);
  }

  lemma BareHeading(section: string, heading: string)
    requires IsSection(section, heading) && |Lines(section)| == 1 && section != "" && !Break(section[|section| - 1])
    ensures Lines(section) == [section] && section == heading && OneLine(section) && Chomp(section) == section
  {
    LinesAreLines(section);
    assert Lines(section)[1..] == [] && Join(Lines(section)) == Lines(section)[0] + "" == Lines(section)[0];
  }

  lemma LastLineOfText(lines: seq<string>, i: nat)
    requires AreLines(lines) && i < |lines| && !Break(lines[i][|lines[i]| - 1])
    ensures i == |lines| - 1
  {
    assert i < |lines| - 1 ==> Breaks(lines[i], lines[i + 1]);
  }

  lemma {:induction false} ChompedIsNoLonger(line: string)
    ensures |Chomp(line)| <= |line| && (|Chomp(line)| == |line| ==> Chomp(line) == line)
    decreases |line|
  {
    if line != "" && line[|line| - 1] == '\n' {
      ChompedIsNoLonger(line[..|line| - 1]);
    }
  }

  lemma FirstOfJoin(lines: seq<string>)
    requires lines != []
    ensures Join(lines) == lines[0] + Join(lines[1..]) && |Join(lines)| >= |lines[0]|
  {
  }

  /** Where a bare heading is read, its line is the last and has no break. */
  lemma BareHeadingRead(lines: seq<string>, heading: string, start: nat, end: nat)
    requires AreLines(lines) && AreBounds(lines, heading, Some((start, end)))
    requires OneLine(heading) && !Break(heading[|heading| - 1]) && Join(lines[start..end]) == heading
    ensures start == |lines| - 1 && lines[start] == heading
  {
    FirstOfJoin(lines[start..end]);
    ChompedIsNoLonger(lines[start]);
    LastLineOfText(lines, start);
  }

  /** The lines of a text whose bare heading runs on: none of them up to there is the heading. */
  lemma BareLines(before: seq<string>, heading: string, after: seq<string>)
    requires Frames(before, after, heading) && after != [] && Chomp(heading) == heading
    ensures var all := before + RunOn([heading], after[0]) + after[1..];
            && |all| == |before| + |after|
            && (forall i :: 0 <= i <= |before| ==> !IsHeading(all[i], heading))
            && (forall i :: |before| < i < |all| ==> all[i] == after[i - |before|])
  {
    var all := before + RunOn([heading], after[0]) + after[1..];
    EndsOpens(after[0], heading);
    ChompLonger(heading, after[0]);
    assert all[|before|] == heading + after[0];
  }

  lemma JoinOfOne(line: string)
    ensures Join([line]) == line
  {
    assert [line][1..] == [] && line + "" == line;
  }

  lemma JoinOfLast(all: seq<string>)
    requires all != []
    ensures Join(all[|all| - 1..|all|]) == all[|all| - 1]
  {
    assert all[|all| - 1..|all|] == [all[|all| - 1]];
    JoinOfOne(all[|all| - 1]);
  }

  lemma FoundAgain(all: seq<string>, before: nat, after: seq<string>, heading: string)
    requires |all| == before + |after| && Reappears(heading, after, heading) && Chomp(heading) == heading
    requires forall i :: 0 <= i <= before ==> !IsHeading(all[i], heading)
    requires forall i :: before < i < |all| ==> all[i] == after[i - before]
    ensures AreBounds(all, heading, Some((|all| - 1, |all|))) && all[|all| - 1] == heading
  {
  }

  /** The lines of a text whose bare heading runs on. */
  predicate BareText(text: string, before: nat, after: seq<string>, heading: string) {
    var all := Lines(text);
    && |all| == before + |after|
    && (forall i :: 0 <= i < |all| && i <= before ==> !IsHeading(all[i], heading))
    && (forall i :: before < i < |all| ==> all[i] == after[i - before])
  }

  lemma BareTextOf(before: seq<string>, heading: string, after: seq<string>)
    requires Frames(before, after, heading) && Lines(heading) == [heading] && Chomp(heading) == heading
    requires heading != "" && !Closes(heading, after) && (before != [] ==> Breaks(before[|before| - 1], heading))
    ensures BareText(Join(before) + heading + Join(after), |before|, after, heading)
  {
    RunOnSplices(before, heading, after);
    BareLines(before, heading, after);
  }

  lemma BareReappears(text: string, before: nat, after: seq<string>, heading: string)
    requires BareText(text, before, after, heading) && Reappears(heading, after, heading) && Chomp(heading) == heading
    ensures Extracted(text, heading) == Some(heading)
  {
    var all := Lines(text);
    FoundAgain(all, before, after, heading);
    BoundsAreUnique(all, heading, Bounds(all, heading), Some((|all| - 1, |all|)));
    JoinOfLast(all);
  }

  lemma BareIsRead(text: string, before: nat, after: seq<string>, heading: string)
    requires BareText(text, before, after, heading) && after != [] && OneLine(heading) && !Break(heading[|heading| - 1])
    requires Extracted(text, heading) == Some(heading)
    ensures Reappears(heading, after, heading)
  {
    var all := Lines(text);
    LinesAreLines(text);
    var (start, end) := Bounds(all, heading).value;
    BareHeadingRead(all, heading, start, end);
    forall j | 0 < j < |after| - 1 ensures !IsHeading(after[j], heading) {
      assert all[before + j] == after[j];
    }
  }

  /** A bare heading that runs on is found only where it reappears. */
  lemma BareHeadingRunsOn(before: seq<string>, section: string, after: seq<string>, heading: string)
    requires Frames(before, after, heading) && IsSection(section, heading) && |Lines(section)| == 1
    requires before != [] ==> Breaks(before[|before| - 1], section)
    requires section != "" && !Closes(section, after)
    ensures Extracted(Join(before) + section + Join(after), heading) == Some(section) <==> Reappears(section, after, heading)
  {
    var text := Join(before) + section + Join(after);
    BareHeading(section, heading);
    BareTextOf(before, heading, after);
    if Reappears(section, after, heading) {
      BareReappears(text, |before|, after, heading);
    }
    if Extracted(text, heading) == Some(section) {
      BareIsRead(text, |before|, after, heading);
    }
  }

  /** What was spliced in is read back exactly when its heading is not the empty one, or was there,
      and it is closed; or else it is a bare heading and reappears as the text's last line. */
  lemma ExtractAfterReplaceExactly(existing: string, heading: string, section: string)
    requires IsSection(section, heading)
    ensures Extracted(Replaced(existing, heading, section), heading) == Some(section) <==>
            && (heading != "" || Present(existing, heading))
            && (Closes(section, Frame(existing, heading).1) || Reappears(section, Frame(existing, heading).1, heading))
  {
    var (before, after) := Frame(existing, heading);
    if Closes(section, after) {
      if heading != "" || Present(existing, heading) {
        ExtractAfterReplace(existing, heading, section);
      } else {
        EmptyHeadingIsLost(existing, section);
      }
    } else {
      var (start, end) := Bounds(Lines(existing), heading).value;
      FrameBreaks(existing, heading, start, end, section);
      if |Lines(section)| > 1 {
        LongSectionRunsOn(before, section, after, heading);
      } else {
        BareHeadingRunsOn(before, section, after, heading);
      }
    }
  }

  /** A bare heading that is not closed does reappear in a text that ends with it. */
  lemma BareHeadingReappears(heading: string, next: string)
    requires OneLine(heading) && !Break(heading[|heading| - 1]) && OneLine(next) && Breaks(next, heading) && Ends(next, heading)
    ensures var existing := heading + "\n" + next + heading;
            && IsSection(heading, heading) && Present(existing, heading)
            && !Closes(heading, Frame(existing, heading).1)
            && Extracted(Replaced(existing, heading, heading), heading) == Some(heading)
  {
    var lines := [heading + "\n", next, heading];
    LinesOfOne(heading);
    OneLineLonger(heading, "\n");
    SameHeadingLonger(heading);
    JoinOfOne(heading);
    assert lines[1..] == [next, heading] && [next, heading][1..] == [heading];
    assert Join([next, heading]) == next + Join([heading]);
    assert Join(lines) == heading + "\n" + (next + heading) == heading + "\n" + next + heading;
    LinesJoin(lines);
    assert AreBounds(lines, heading, Some((0, 1)));
    BoundsAreUnique(lines, heading, Bounds(lines, heading), Some((0, 1)));
    ExtractAfterReplaceExactly(heading + "\n" + next + heading, heading, heading);
  }

  /** A second replacement undoes the first: replacing twice is replacing once. */
  lemma ReplaceAfterReplace(existing: string, heading: string, section: string, again: string)
    requires IsSection(section, heading) && (heading != "" || Present(existing, heading))
    requires Closes(section, Frame(existing, heading).1)
    ensures Replaced(Replaced(existing, heading, section), heading, again) == Replaced(existing, heading, again)
  {
    ReplacedIsSpliced(existing, heading, section);
    var (before, after) := Frame(existing, heading);
    SplicedIsSection(before, section, after, heading, again);
  }

  lemma MiddleLines(lines: seq<string>, start: nat, end: nat)
    requires AreLines(lines) && start <= end <= |lines|
    ensures Lines(Join(lines[start..end])) == lines[start..end]
  {
    PartsAreLines(lines, start, end);
    LinesJoin(lines[start..end]);
  }

  lemma JoinThree(a: seq<string>, b: seq<string>, c: seq<string>)
    ensures Join(a + b + c) == Join(a) + Join(b) + Join(c)
  {
    JoinSplit(a, b);
    JoinSplit(a + b, c);
  }

  lemma ThreeParts(lines: seq<string>, start: nat, end: nat)
    requires start <= end <= |lines|
    ensures lines == lines[..start] + lines[start..end] + lines[end..]
  {
  }

  /** Every line outside the section survives exactly when the section is closed: the lines of the
      new text are then those around the old section with the new section's lines between them. */
  lemma OutsideSurvives(existing: string, heading: string, section: string)
    requires IsSection(section, heading) && Present(existing, heading)
    ensures var (before, after) := Frame(existing, heading);
            && Lines(existing) == before + Lines(Extracted(existing, heading).value) + after
            && (Lines(Replaced(existing, heading, section)) == before + Lines(section) + after <==> Closes(section, after))
  {
    var (before, after) := Frame(existing, heading);
    var (start, end) := Bounds(Lines(existing), heading).value;
    if Closes(section, after) {
      ReplacedIsSpliced(existing, heading, section);
      SplicedBounds(before, section, after, heading);
    } else {
      FrameBreaks(existing, heading, start, end, section);
      RunOnSplices(before, section, after);
      assert |before + RunOn(Lines(section), after[0]) + after[1..]| < |before + Lines(section) + after|;
    }
    LinesAreLines(existing);
    MiddleLines(Lines(existing), start, end);
    ThreeParts(Lines(existing), start, end);
  }

  /** Where the heading is not, the whole text survives, ended and followed by an empty line. */
  lemma AppendKeepsAll(existing: string, heading: string, section: string)
    requires !Present(existing, heading)
    ensures existing + "\n" <= Replaced(existing, heading, section)
    ensures Replaced(existing, heading, section) == existing + "\n" + section ||
            Replaced(existing, heading, section) == existing + "\n\n" + section
    ensures Replaced(existing, heading, section) == existing + "\n" + section <== EndsInNewline(existing)
  {
    assert existing + "\n" + "\n" == existing + "\n\n";
  }

  /** Putting back what was taken out changes nothing. */
  lemma ReplaceWithExtracted(existing: string, heading: string)
    requires Present(existing, heading)
    ensures Replaced(existing, heading, Extracted(existing, heading).value) == existing
  {
    var (start, end) := Bounds(Lines(existing), heading).value;
    LinesAreLines(existing);
    var lines := Lines(existing);
    ThreeParts(lines, start, end);
    JoinThree(lines[..start], lines[start..end], lines[end..]);
  }
}
