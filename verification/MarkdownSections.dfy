/** Markdown sections: the line-by-line grouping under the headings of one level, and the
    fenced code blocks whose lines are never headings. */
module MarkdownSections {
  import opened Basics
  import opened Text

  // ---- fences and headings, line by line ----

  /** `line` without its leading spaces. */
  function Unindented(line: string): string {
    if line != [] && line[0] == ' ' then Unindented(line[1..]) else line
  }

  predicate AllMarks(s: string, mark: char) {
    forall k | 0 <= k < |s| :: s[k] == mark
  }

  /** The run of equal marks a line starts with. */
  function LeadingMarks(s: string, mark: char): (run: string)
    ensures |run| <= |s|
  {
    if s != [] && s[0] == mark then [mark] + LeadingMarks(s[1..], mark) else []
  }

  predicate OpensFence(trimmed: string) {
    HasPrefix(trimmed, ['`', '`', '`']) || HasPrefix(trimmed, ['~', '~', '~'])
  }

  predicate ClosesFence(trimmed: string, fence: string)
    requires fence != []
  {
    HasPrefix(trimmed, fence) && AllMarks(TrimSpace(trimmed), fence[0])
  }

  function Hashes(level: nat): string {
    seq(level, _ => '#')
  }

  predicate IsHeading(trimmed: string, level: nat) {
    var heading := Hashes(level);
    || HasPrefix(trimmed, heading + [' ']) || HasPrefix(trimmed, heading + ['\t'])
    || TrimSpace(trimmed) == heading
  }

  /** More than three leading spaces make a line part of an indented block. */
  predicate Indented(line: string) {
    |line| - |Unindented(line)| > 3
  }

  /** The open fence after a line; the empty string is no fence. */
  function FenceAfter(fence: string, line: string): string {
    var trimmed := Unindented(line);
    if Indented(line) then fence
    else if fence != [] then (if ClosesFence(trimmed, fence) then [] else fence)
    else if OpensFence(trimmed) then LeadingMarks(trimmed, trimmed[0])
    else []
  }

  /** A heading line of the level, outside any fence. */
  predicate StartsSection(fence: string, line: string, level: nat) {
    && !Indented(line) && fence == []
    && !OpensFence(Unindented(line)) && IsHeading(Unindented(line), level)
  }

  // ---- sections ----

  /** The open fence before line `k`. */
  function FenceBefore(lines: seq<string>, k: nat): string
    requires k <= |lines|
  {
    if k == 0 then [] else FenceAfter(FenceBefore(lines, k - 1), lines[k - 1])
  }

  predicate SectionStart(lines: seq<string>, k: nat, level: nat)
    requires k < |lines|
  {
    StartsSection(FenceBefore(lines, k), lines[k], level)
  }

  /** The lines from `k` on, grouped; `open` holds the lines of the current group so far. */
  function Grouped(lines: seq<string>, k: nat, open: string, level: nat): seq<string>
    requires k <= |lines|
    decreases |lines| - k
  {
    if k == |lines| then [open]
    else if SectionStart(lines, k, level) && open != [] then [open] + Grouped(lines, k + 1, lines[k], level)
    else Grouped(lines, k + 1, open + lines[k], level)
  }

  function Sections(s: string, level: nat): seq<string> {
    Grouped(SplitAfter(s, "\n"), 0, [], level)
  }

  /** The first section start after line `k`, or the number of lines. */
  function NextStart(lines: seq<string>, k: nat, level: nat): (n: nat)
    requires k < |lines|
    ensures k < n <= |lines|
    ensures n < |lines| ==> SectionStart(lines, n, level)
    ensures forall j | k < j < n :: !SectionStart(lines, j, level)
    decreases |lines| - k
  {
    if k + 1 == |lines| || SectionStart(lines, k + 1, level) then k + 1 else NextStart(lines, k + 1, level)
  }

  /** The sections as line ranges: from the start up to the next section start, and so on. */
  function Ranges(lines: seq<string>, k: nat, level: nat): seq<string>
    requires k < |lines|
    decreases |lines| - k
  {
    var n := NextStart(lines, k, level);
    [Flatten(lines[k..n])] + (if n == |lines| then [] else Ranges(lines, n, level))
  }

  /** Grouping line by line gives exactly the line ranges that begin at the section starts:
      the parts join to the text, every part but the first begins with a heading line of the
      level outside any fence, and no other line of a part is one. */
  lemma SectionsAreRanges(s: string, level: nat)
    requires s != [] && level > 0
    ensures var lines := SplitAfter(s, "\n");
            lines != [] && Sections(s, level) == Ranges(lines, 0, level)
    ensures Flatten(Sections(s, level)) == s
  {
    hide StartsSection, FenceBefore;
    var lines := SplitAfter(s, "\n");
    LinesNotEmpty(s);
    assert [] + lines[0] == lines[0];
    assert lines[0..1] == [lines[0]] && Flatten([lines[0]]) == lines[0];
    forall j | 0 < j < |lines| && SectionStart(lines, j, level) ensures lines[j] != [] {
      EmptyStartsNothing(FenceBefore(lines, j), level);
    }
    GroupedIsRanges(lines, 0, 1, level);
    RangesJoin(lines, 0, level);
    assert lines[0..] == lines;
  }

  lemma LinesNotEmpty(s: string)
    requires s != []
    ensures var lines := SplitAfter(s, "\n");
            && lines != [] && lines[0] != [] && Flatten(lines) == s
            && forall j | 0 <= j < |lines| - 1 :: lines[j] != []
  {
    var lines := SplitAfter(s, "\n");
    SplitAfterPieces(s, "\n");
    forall j | 0 <= j < |lines| - 1 ensures lines[j] != [] {
      assert EndsAtFirst(lines[j], "\n", false);
    }
    if |lines| == 1 {
      assert Flatten(lines) == lines[0] + Flatten(lines[1..]);
    }
  }

  lemma EmptyStartsNothing(fence: string, level: nat)
    requires level > 0
    ensures !StartsSection(fence, [], level)
  {
  }

  lemma {:induction false} GroupedIsRanges(lines: seq<string>, from_: nat, k: nat, level: nat)
    requires from_ < k <= |lines| && Flatten(lines[from_..k]) != []
    requires forall j | from_ < j < k :: !SectionStart(lines, j, level)
    requires forall j | 0 <= j < |lines| - 1 :: lines[j] != []
    requires forall j | 0 < j < |lines| && SectionStart(lines, j, level) :: lines[j] != []
    ensures Grouped(lines, k, Flatten(lines[from_..k]), level) == Ranges(lines, from_, level)
    decreases |lines| - k
  {
    hide SectionStart, Flatten;
    var open := Flatten(lines[from_..k]);
    NextStartIs(lines, from_, k, level);
    if k < |lines| {
      if SectionStart(lines, k, level) {
        FlattenOne(lines[k]);
        assert lines[k..k + 1] == [lines[k]];
        GroupedIsRanges(lines, k, k + 1, level);
      } else {
        assert lines[from_..k + 1] == lines[from_..k] + [lines[k]];
        FlattenAppend(lines[from_..k], [lines[k]]);
        FlattenOne(lines[k]);
        GroupedIsRanges(lines, from_, k + 1, level);
      }
    }
  }

  lemma {:induction false} NextStartIs(lines: seq<string>, from_: nat, k: nat, level: nat)
    requires from_ < k <= |lines|
    requires forall j | from_ < j < k :: !SectionStart(lines, j, level)
    ensures k == |lines| || SectionStart(lines, k, level) ==> NextStart(lines, from_, level) == k
  {
  }

  lemma {:induction false} RangesJoin(lines: seq<string>, k: nat, level: nat)
    requires k < |lines|
    ensures Flatten(Ranges(lines, k, level)) == Flatten(lines[k..])
    decreases |lines| - k
  {
    var n := NextStart(lines, k, level);
    assert lines[k..] == lines[k..n] + lines[n..];
    FlattenAppend(lines[k..n], lines[n..]);
    if n < |lines| {
      RangesJoin(lines, n, level);
    } else {
      assert lines[n..] == [];
      assert Flatten([Flatten(lines[k..n])]) == Flatten(lines[k..n]);
    }
  }

  /** Where the section loop stands before line `k`: `start` is where the open part begins,
      `offset` where the line does, `parts` what is complete. */
  ghost predicate Standing(text: string, level: nat, lines: seq<string>, k: nat,
                           parts: seq<string>, fence: string, start: nat, offset: nat) {
    && k <= |lines| && start <= offset <= |text|
    && text[offset..] == Flatten(lines[k..])
    && fence == FenceBefore(lines, k)
    && parts + Grouped(lines, k, text[start..offset], level) == Grouped(lines, 0, [], level)
  }

  method SplitSections(text: string, level: nat) returns (parts: seq<string>)
    requires level > 0
    ensures parts == Sections(text, level)
  {
    hide *;
    var lines := SplitAfter(text, "\n");
    NoLineTaken(text, level);
    parts := [];
    var start: nat, offset: nat, k: nat := 0, 0, 0;
    var fence := [];
    while k < |lines|
      invariant k <= |lines| && Standing(text, level, lines, k, parts, fence, start, offset)
    {
      parts, fence, start := TakeLine(text, level, lines, k, parts, fence, start, offset);
      offset := offset + |lines[k]|;
      k := k + 1;
    }
    AllLinesTaken(text, level, lines, parts, fence, start, offset);
    parts := parts + [text[start..]];
  }

  lemma NoLineTaken(text: string, level: nat)
    ensures var lines := SplitAfter(text, "\n");
            && Standing(text, level, lines, 0, [], [], 0, 0)
            && Sections(text, level) == Grouped(lines, 0, [], level)
  {
    var lines := SplitAfter(text, "\n");
    SplitAfterPieces(text, "\n");
    assert lines[0..] == lines && text[0..0] == [];
  }

  /** One line: a heading completes the open part, if there is one, and starts the next. */
  method TakeLine(text: string, level: nat, lines: seq<string>, k: nat,
                  parts: seq<string>, fence: string, start: nat, offset: nat)
    returns (newParts: seq<string>, newFence: string, newStart: nat)
    requires k < |lines| && Standing(text, level, lines, k, parts, fence, start, offset)
    ensures Standing(text, level, lines, k + 1, newParts, newFence, newStart, offset + |lines[k]|)
  {
    hide Grouped, FenceBefore, Flatten, StartsSection, FenceAfter, SectionStart;
    NextLine(text, start, offset, lines, k);
    GroupedStep(lines, k, text[start..offset], level);
    ghost var next := offset + |lines[k]|;
    var heading;
    newFence, heading := ReadLine(fence, lines[k], level);
    newParts, newStart := parts, start;
    if heading {
      if offset > start {
        newParts := parts + [text[start..offset]];
        Associate(parts, [text[start..offset]], Grouped(lines, k + 1, lines[k], level));
      }
      newStart := offset;
    }
  }

  lemma AllLinesTaken(text: string, level: nat, lines: seq<string>, parts: seq<string>, fence: string, start: nat,
                      offset: nat)
    requires Standing(text, level, lines, |lines|, parts, fence, start, offset)
    ensures start <= |text| && parts + [text[start..]] == Grouped(lines, 0, [], level)
  {
    GroupedEnd(text, start, offset, lines, level);
  }

  method ReadLine(open: string, line: string, level: nat) returns (fence: string, heading: bool)
    ensures fence == FenceAfter(open, line) && heading == StartsSection(open, line, level)
  {
    hide IsHeading, Unindented;
    fence, heading := open, false;
    var trimmed := Unindented(line);
    if |line| - |trimmed| <= 3 {
      if fence != [] {
        if ClosesFence(trimmed, fence) {
          fence := [];
        }
      } else if OpensFence(trimmed) {
        fence := ReadFence(trimmed);
      } else if IsHeading(trimmed, level) {
        heading := true;
      }
    }
  }

  lemma NextLine(text: string, start: nat, offset: nat, lines: seq<string>, k: nat)
    requires start <= offset <= |text| && k < |lines| && text[offset..] == Flatten(lines[k..])
    ensures var next := offset + |lines[k]|;
            && next <= |text| && text[next..] == Flatten(lines[k + 1..])
            && text[offset..next] == lines[k]
            && text[start..next] == text[start..offset] + lines[k]
  {
  }

  lemma GroupedStep(lines: seq<string>, k: nat, open: string, level: nat)
    requires k < |lines|
    ensures Grouped(lines, k, open, level) ==
            if SectionStart(lines, k, level) && open != [] then [open] + Grouped(lines, k + 1, lines[k], level)
            else Grouped(lines, k + 1, open + lines[k], level)
    ensures SectionStart(lines, k, level) == StartsSection(FenceBefore(lines, k), lines[k], level)
    ensures FenceBefore(lines, k + 1) == FenceAfter(FenceBefore(lines, k), lines[k])
    ensures [] + lines[k] == lines[k]
  {
  }

  lemma GroupedEnd(text: string, start: nat, offset: nat, lines: seq<string>, level: nat)
    requires start <= offset <= |text| && text[offset..] == Flatten(lines[|lines|..])
    ensures Grouped(lines, |lines|, text[start..offset], level) == [text[start..]]
  {
    assert |text[offset..]| == 0;
    assert text[start..offset] == text[start..];
  }

  method ReadFence(trimmed: string) returns (fence: string)
    requires OpensFence(trimmed)
    ensures fence == LeadingMarks(trimmed, trimmed[0])
  {
    var mark := trimmed[0];
    forall k | 0 <= k < 3 ensures trimmed[k] == mark { assert trimmed[k] == trimmed[..3][k]; }
    fence := trimmed[..3];
    while |fence| < |trimmed| && trimmed[|fence|] == mark
      invariant 3 <= |fence| <= |trimmed| && fence == trimmed[..|fence|] && AllMarks(fence, mark)
      decreases |trimmed| - |fence|
    {
      fence := fence + [mark];
    }
    RunIs(trimmed, mark, |fence|);
  }

  lemma {:induction false} RunIs(s: string, mark: char, n: nat)
    requires n <= |s| && AllMarks(s[..n], mark) && (n < |s| ==> s[n] != mark)
    ensures LeadingMarks(s, mark) == s[..n]
  {
    if n > 0 {
      assert s[0] == s[..n][0];
      assert s[..n] == [s[0]] + s[1..][..n - 1];
      var rest := s[1..][..n - 1];
      forall k | 0 <= k < n - 1 ensures rest[k] == mark { assert rest[k] == s[..n][k + 1]; }
      RunIs(s[1..], mark, n - 1);
    }
  }

  // ---- what a fence is ----

  function Marks(mark: char, n: nat): string {
    seq(n, _ => mark)
  }

  /** No fence, or a run of at least three equal fence marks. */
  ghost predicate IsFence(fence: string) {
    fence == [] || (|fence| >= 3 && (fence[0] == '`' || fence[0] == '~') && AllMarks(fence, fence[0]))
  }

  lemma {:induction false} LeadingMarksRun(s: string, mark: char)
    ensures var run := LeadingMarks(s, mark);
            && HasPrefix(s, run) && AllMarks(run, mark)
            && (|run| < |s| ==> s[|run|] != mark)
  {
    if s != [] && s[0] == mark {
      LeadingMarksRun(s[1..], mark);
      var rest := LeadingMarks(s[1..], mark);
      assert s[..1 + |rest|] == [s[0]] + s[1..][..|rest|];
    }
  }

  /** A fence opens with all the marks its line starts with, three or more of one kind. */
  lemma OpeningFence(line: string)
    requires !Indented(line) && OpensFence(Unindented(line))
    ensures var trimmed := Unindented(line);
            var fence := FenceAfter([], line);
            && IsFence(fence) && fence != [] && HasPrefix(trimmed, fence)
            && (|fence| < |trimmed| ==> trimmed[|fence|] != fence[0])
  {
    var trimmed := Unindented(line);
    var run := LeadingMarks(trimmed, trimmed[0]);
    LeadingMarksRun(trimmed, trimmed[0]);
    assert trimmed[0] == trimmed[..3][0] && trimmed[1] == trimmed[..3][1] && trimmed[2] == trimmed[..3][2];
    assert |run| >= 3;
    assert run[0] == trimmed[..|run|][0];
  }

  /** An opening fence by section 4.5 of CommonMark 0.31.2: three or more of one mark, and
      after backticks no further backtick on the line. */
  predicate StandardFence(trimmed: string) {
    || |LeadingMarks(trimmed, '~')| >= 3
    || (|LeadingMarks(trimmed, '`')| >= 3 && '`' !in trimmed[|LeadingMarks(trimmed, '`')|..])
  }

  /** Every standard fence opens one here, and the two agree on a line unless it starts with
      three backticks and holds another one after the run it starts with. */
  lemma FencesAgree(trimmed: string)
    ensures StandardFence(trimmed) ==> OpensFence(trimmed)
    ensures (OpensFence(trimmed) <==> StandardFence(trimmed)) <==>
            !(HasPrefix(trimmed, Marks('`', 3)) && '`' in trimmed[|LeadingMarks(trimmed, '`')|..])
  {
    ThreeMarks(trimmed, '`');
    ThreeMarks(trimmed, '~');
    assert Marks('`', 3) == ['`', '`', '`'] && Marks('~', 3) == ['~', '~', '~'];
  }

  lemma ThreeMarks(s: string, mark: char)
    ensures HasPrefix(s, Marks(mark, 3)) <==> |LeadingMarks(s, mark)| >= 3
    ensures |LeadingMarks(s, mark)| >= 3 ==> s[0] == mark
  {
    LeadingMarksRun(s, mark);
    var run := LeadingMarks(s, mark);
    if |run| >= 3 {
      assert s[..3] == run[..3] && run[..3] == Marks(mark, 3);
    }
    if HasPrefix(s, Marks(mark, 3)) {
      forall k | 0 <= k < 3 ensures s[k] == mark { assert s[k] == s[..3][k]; }
    }
  }

  /** Such a line: three backticks and, in what follows, a fourth. By the standard it is a
      paragraph; here it hides the headings behind it. */
  lemma BacktickInInfoString()
    ensures var line := ['`', '`', '`', 'a', '`', '\n'];
            !StandardFence(line) && FenceAfter([], line) == Marks('`', 3)
  {
    var line := ['`', '`', '`', 'a', '`', '\n'];
    ThreeMarks(line, '`');
    assert line[..3] == Marks('`', 3);
    RunIs(line, '`', 3);
    assert line[3..] == ['a', '`', '\n'];
    assert Unindented(line) == line;
  }

  /** At every line the fence that is open is a run of three or more equal marks. */
  lemma {:induction false} FencesAreRuns(lines: seq<string>, k: nat)
    requires k <= |lines|
    ensures IsFence(FenceBefore(lines, k))
  {
    if k > 0 {
      FencesAreRuns(lines, k - 1);
      if FenceBefore(lines, k - 1) == [] && !Indented(lines[k - 1]) && OpensFence(Unindented(lines[k - 1])) {
        OpeningFence(lines[k - 1]);
      }
    }
  }

  /** A fence of n marks is closed exactly by a line that holds n or more of the same mark and
      then nothing but white space. */
  lemma ClosingFence(trimmed: string, fence: string)
    requires IsFence(fence) && fence != []
    ensures ClosesFence(trimmed, fence) <==>
            exists n :: |fence| <= n <= |trimmed| && trimmed[..n] == Marks(fence[0], n) && Blank(trimmed[n..])
  {
    var mark := fence[0];
    if ClosesFence(trimmed, fence) {
      assert trimmed[0] == trimmed[..|fence|][0] == mark;
      var i, j := TrimCut(trimmed);
      MarkIsNotSpace(mark);
      forall k | 0 <= k < i ensures IsSpace(trimmed[k]) { assert IsSpace(trimmed[..i][k]); }
      assert i == 0;
      assert trimmed[..j] == TrimSpace(trimmed);
      MarkedLength(trimmed, fence, j);
      assert trimmed[..j] == Marks(mark, j);
    }
    if n :| |fence| <= n <= |trimmed| && trimmed[..n] == Marks(mark, n) && Blank(trimmed[n..]) {
      MarkedCloses(trimmed, fence, n);
    }
  }

  lemma MarkIsNotSpace(mark: char)
    requires mark == '`' || mark == '~'
    ensures !IsSpace(mark)
  {
  }

  lemma MarkedLength(trimmed: string, fence: string, j: nat)
    requires IsFence(fence) && fence != [] && HasPrefix(trimmed, fence)
    requires j <= |trimmed| && Blank(trimmed[j..])
    ensures |fence| <= j
  {
    MarkIsNotSpace(fence[0]);
    var last := |fence| - 1;
    assert trimmed[last] == trimmed[..|fence|][last] == fence[0];
    forall k | j <= k < |trimmed| ensures IsSpace(trimmed[k]) { assert IsSpace(trimmed[j..][k - j]); }
  }

  lemma MarkedCloses(trimmed: string, fence: string, n: nat)
    requires IsFence(fence) && fence != []
    requires |fence| <= n <= |trimmed| && trimmed[..n] == Marks(fence[0], n) && Blank(trimmed[n..])
    ensures ClosesFence(trimmed, fence)
  {
    var mark := fence[0];
    MarkIsNotSpace(mark);
    forall k | 0 <= k < n ensures trimmed[k] == mark { assert trimmed[..n][k] == mark; }
    assert trimmed[..|fence|] == fence;
    var i, j := TrimCut(trimmed);
    forall k | n <= k < |trimmed| ensures IsSpace(trimmed[k]) { assert IsSpace(trimmed[n..][k - n]); }
    assert j <= n;
    forall k | 0 <= k < j - i ensures TrimSpace(trimmed)[k] == mark { assert TrimSpace(trimmed)[k] == trimmed[i + k]; }
  }

  // ---- what a section start is ----

  /** The line begins with exactly `n` spaces. */
  predicate LeadingSpaces(line: string, n: nat) {
    n <= |line| && AllMarks(line[..n], ' ') && (n < |line| ==> line[n] != ' ')
  }

  /** `level` marks '#' followed by a space or a tab, or alone but for white space. */
  ghost predicate HeadingText(text: string, level: nat) {
    || (|text| > level && AllMarks(text[..level], '#') && (text[level] == ' ' || text[level] == '\t'))
    || (exists x, y :: text == x + Marks('#', level) + y && Blank(x) && Blank(y))
  }

  /** At most three leading spaces, and then a heading of the level. */
  ghost predicate HeadingLine(line: string, level: nat) {
    exists n: nat :: n <= 3 && LeadingSpaces(line, n) && HeadingText(line[n..], level)
  }

  lemma {:induction false} SpacesCut(line: string) returns (n: nat)
    ensures LeadingSpaces(line, n) && Unindented(line) == line[n..]
    ensures Indented(line) <==> n > 3
    ensures forall m :: LeadingSpaces(line, m) ==> m == n
  {
    if line != [] && line[0] == ' ' {
      var m := SpacesCut(line[1..]);
      n := m + 1;
      assert line[..n] == [' '] + line[1..][..m];
      assert line[1..][m..] == line[n..];
    } else {
      n := 0;
    }
    forall m | LeadingSpaces(line, m) ensures m == n {
      SameSpaces(line, m, n);
    }
  }

  lemma SameSpaces(line: string, m: nat, n: nat)
    requires LeadingSpaces(line, m) && LeadingSpaces(line, n)
    ensures m == n
  {
    if m < n {
      SpaceBefore(line, n, m);
    } else if n < m {
      SpaceBefore(line, m, n);
    }
  }

  lemma SpaceBefore(line: string, n: nat, m: nat)
    requires LeadingSpaces(line, n) && m < n
    ensures line[m] == ' '
  {
    assert line[m] == line[..n][m];
  }

  /** A part begins at line `k`, the first line apart, exactly when no fence is open before it,
      it has at most three leading spaces, and a heading of the level follows them. */
  lemma SectionBegins(lines: seq<string>, k: nat, level: nat)
    requires k < |lines| && level > 0
    ensures SectionStart(lines, k, level) <==>
            FenceBefore(lines, k) == [] && HeadingLine(lines[k], level)
  {
    hide Indented, Unindented, HeadingText, LeadingSpaces, OpensFence, IsHeading;
    var line := lines[k];
    var n := SpacesCut(line);
    assert LeadingSpaces(line, n) ==> n <= |line| by { FitsIn(line, n); }
    HeadingIs(line[n..], level);
    if HeadingText(line[n..], level) {
      HeadingOpensNothing(line[n..], level);
    }
  }

  /** The last line of a part, given the first line of each. */
  function EndOf(starts: seq<nat>, j: nat, lines: seq<string>): int
    requires j < |starts|
  {
    if j + 1 < |starts| then starts[j + 1] else |lines|
  }

  /** The part holds the lines from its first to the first of the next. */
  predicate PartIs(lines: seq<string>, part: string, starts: seq<nat>, j: nat)
    requires j < |starts|
  {
    && starts[j] < EndOf(starts, j, lines) <= |lines|
    && part == Flatten(lines[starts[j]..EndOf(starts, j, lines)])
  }

  ghost predicate CutAt(lines: seq<string>, parts: seq<string>, starts: seq<nat>) {
    |parts| == |starts| && forall j | 0 <= j < |starts| :: PartIs(lines, parts[j], starts, j)
  }

  /** The first lines are `from_` and exactly the later lines at which a section begins. */
  ghost predicate StartsAre(lines: seq<string>, from_: nat, level: nat, starts: seq<nat>) {
    && starts != [] && starts[0] == from_
    && forall k | 0 <= k < |lines| :: k in starts <==> k == from_ || (from_ < k && SectionStart(lines, k, level))
  }

  lemma {:induction false} RangesCut(lines: seq<string>, k: nat, level: nat) returns (starts: seq<nat>)
    requires k < |lines|
    ensures CutAt(lines, Ranges(lines, k, level), starts) && StartsAre(lines, k, level, starts)
    decreases |lines| - k
  {
    hide CutAt, StartsAre, Flatten, SectionStart;
    var n := NextStart(lines, k, level);
    var first := [Flatten(lines[k..n])];
    if n == |lines| {
      starts := [k];
      assert first + [] == first;
      OnePart(lines, k, level);
    } else {
      var later := RangesCut(lines, n, level);
      starts := [k] + later;
      PartBefore(lines, k, n, Ranges(lines, n, level), later) by { StartsFrom(lines, n, level, later); }
      StartsBefore(lines, k, level, later);
    }
  }

  lemma OnePart(lines: seq<string>, k: nat, level: nat)
    requires k < |lines| && NextStart(lines, k, level) == |lines|
    ensures CutAt(lines, [Flatten(lines[k..|lines|])], [k]) && StartsAre(lines, k, level, [k])
  {
    hide SectionStart, Flatten;
  }

  lemma PartBefore(lines: seq<string>, k: nat, n: nat, parts: seq<string>, later: seq<nat>)
    requires k < n < |lines| && CutAt(lines, parts, later) && later != [] && later[0] == n
    ensures CutAt(lines, [Flatten(lines[k..n])] + parts, [k] + later)
  {
    hide PartIs, Flatten;
    var starts, more := [k] + later, [Flatten(lines[k..n])] + parts;
    assert PartIs(lines, more[0], starts, 0) by { FirstPart(lines, k, n, later); }
    forall j | 1 <= j < |starts| ensures PartIs(lines, more[j], starts, j) {
      assert PartIs(lines, parts[j - 1], later, j - 1);
      NextPart(lines, parts[j - 1], k, later, j - 1);
    }
  }

  lemma FirstPart(lines: seq<string>, k: nat, n: nat, later: seq<nat>)
    requires k < n < |lines| && later != [] && later[0] == n
    ensures PartIs(lines, Flatten(lines[k..n]), [k] + later, 0)
  {
    assert EndOf([k] + later, 0, lines) == n;
  }

  lemma NextPart(lines: seq<string>, part: string, k: nat, later: seq<nat>, j: nat)
    requires j < |later| && PartIs(lines, part, later, j)
    ensures PartIs(lines, part, [k] + later, j + 1)
  {
    assert ([k] + later)[j + 1] == later[j] && EndOf([k] + later, j + 1, lines) == EndOf(later, j, lines);
  }

  lemma StartsFrom(lines: seq<string>, n: nat, level: nat, later: seq<nat>)
    requires StartsAre(lines, n, level, later)
    ensures later != [] && later[0] == n
  {
  }

  lemma StartsBefore(lines: seq<string>, k: nat, level: nat, later: seq<nat>)
    requires k < |lines| && NextStart(lines, k, level) < |lines|
    requires StartsAre(lines, NextStart(lines, k, level), level, later)
    ensures StartsAre(lines, k, level, [k] + later)
  {
    hide SectionStart;
    var n := NextStart(lines, k, level);
    forall i | 0 <= i < |lines|
      ensures i in [k] + later <==> i == k || (k < i && SectionStart(lines, i, level))
    {
      assert i in [k] + later <==> i == k || i in later;
    }
  }

  /** Splitting a text at a level, without reference to how: the parts are the ranges of lines
      between consecutive first lines, and line k > 0 is a first line if and only if no fence is
      open before it, it has at most three leading spaces, and then `level` marks '#' followed
      by a space or a tab, or alone but for white space. */
  lemma SectionsCutExactly(s: string, level: nat) returns (starts: seq<nat>)
    requires s != [] && level > 0
    ensures var lines, parts := SplitAfter(s, "\n"), Sections(s, level);
            && starts != [] && starts[0] == 0 && CutAt(lines, parts, starts)
            && (forall k | 0 < k < |lines| ::
                  k in starts <==> FenceBefore(lines, k) == [] && HeadingLine(lines[k], level))
  {
    hide SectionStart, CutAt, FenceBefore, HeadingLine;
    var lines := SplitAfter(s, "\n");
    SectionsAreRanges(s, level);
    starts := RangesCut(lines, 0, level);
    forall k | 0 < k < |lines|
      ensures SectionStart(lines, k, level) <==> FenceBefore(lines, k) == [] && HeadingLine(lines[k], level)
    {
      SectionBegins(lines, k, level);
    }
  }

  lemma FitsIn(line: string, n: nat)
    requires LeadingSpaces(line, n)
    ensures n <= |line|
  {
  }

  lemma HeadingIs(text: string, level: nat)
    requires level > 0
    ensures IsHeading(text, level) <==> HeadingText(text, level)
  {
    var h := Hashes(level);
    assert h == Marks('#', level);
    MarkedBy(text, h + [' '], level);
    MarkedBy(text, h + ['\t'], level);
    TrimsTo(text, h);
  }

  lemma MarkedBy(text: string, prefix: string, level: nat)
    requires |prefix| == level + 1 && prefix[..level] == Hashes(level)
    ensures HasPrefix(text, prefix) <==>
            |text| > level && AllMarks(text[..level], '#') && text[level] == prefix[level]
  {
    if |text| > level && AllMarks(text[..level], '#') && text[level] == prefix[level] {
      assert text[..level] == prefix[..level];
      assert text[..level + 1] == text[..level] + [text[level]];
      assert prefix == prefix[..level] + [prefix[level]];
    }
    if HasPrefix(text, prefix) {
      assert text[level] == text[..level + 1][level];
      forall k | 0 <= k < level ensures text[..level][k] == '#' {
        assert text[k] == text[..level + 1][k] == prefix[..level][k];
      }
    }
  }

  /** Trimming gives `h` exactly when `h` stands alone but for white space. */
  lemma TrimsTo(text: string, h: string)
    requires h != [] && Trimmed(h)
    ensures TrimSpace(text) == h <==> exists x, y :: text == x + h + y && Blank(x) && Blank(y)
  {
    if TrimSpace(text) == h {
      var i, j := TrimCut(text);
      assert text == text[..i] + h + text[j..];
    }
    if x, y :| text == x + h + y && Blank(x) && Blank(y) {
      TrimsAround(x, h, y);
    }
  }

  lemma TrimsAround(x: string, h: string, y: string)
    requires h != [] && Trimmed(h) && Blank(x) && Blank(y)
    ensures TrimSpace(x + h + y) == h
  {
    var text := x + h + y;
    var i, j := TrimCut(text);
    var lo, hi := |x|, |x| + |h|;
    assert text[lo] == h[0] && text[hi - 1] == h[|h| - 1];
    assert text[..lo] == x && text[hi..] == y && text[lo..hi] == h;
    BlankEnds(text, i, j, lo, hi);
    BlankEnds(text, lo, hi, i, j);
  }

  lemma BlankEnds(text: string, i: nat, j: nat, lo: nat, hi: nat)
    requires i < j <= |text| && lo < hi <= |text| && Blank(text[..i]) && Blank(text[j..])
    requires !IsSpace(text[lo]) && !IsSpace(text[hi - 1])
    ensures i <= lo && hi <= j
  {
    forall k | 0 <= k < i ensures IsSpace(text[k]) { assert text[k] == text[..i][k]; }
    forall k | j <= k < |text| ensures IsSpace(text[k]) { assert text[k] == text[j..][k - j]; }
  }

  lemma HeadingOpensNothing(text: string, level: nat)
    requires level > 0 && HeadingText(text, level)
    ensures !OpensFence(text)
  {
    OpensByMark(text);
    if |text| > level && AllMarks(text[..level], '#') {
      assert text[0] == text[..level][0];
    } else {
      var x, y :| text == x + Marks('#', level) + y && Blank(x) && Blank(y);
      assert text[0] == (if x != [] then x[0] else Marks('#', level)[0]);
      MarkIsNotSpace('`');
      MarkIsNotSpace('~');
    }
  }

  lemma OpensByMark(text: string)
    ensures OpensFence(text) ==> text != [] && (text[0] == '`' || text[0] == '~')
  {
    if OpensFence(text) {
      assert text[0] == text[..3][0];
    }
  }

  /** The text starts with exactly `m` marks. */
  predicate StartsWithMarks(text: string, mark: char, m: nat) {
    m <= |text| && AllMarks(text[..m], mark) && (m < |text| ==> text[m] != mark)
  }

  /** What a line does to the fence: nothing with more than three leading spaces; an open fence
      is closed by its own marks, as many or more, and white space; and without one, exactly a
      run of three or more backticks or tildes opens a fence, which is the whole run. */
  lemma FenceLine(fence: string, line: string, n: nat)
    requires IsFence(fence) && LeadingSpaces(line, n)
    ensures n > 3 ==> FenceAfter(fence, line) == fence
    ensures n <= 3 && fence != [] ==>
              var text := line[n..];
              FenceAfter(fence, line) ==
                if exists m :: |fence| <= m <= |text| && text[..m] == Marks(fence[0], m) && Blank(text[m..]) then []
                else fence
    ensures n <= 3 && fence == [] ==>
              && (forall mark, m | (mark == '`' || mark == '~') && m >= 3 && StartsWithMarks(line[n..], mark, m) ::
                    FenceAfter(fence, line) == Marks(mark, m))
              && (FenceAfter(fence, line) != [] ==>
                    exists mark, m :: (mark == '`' || mark == '~') && m >= 3 && StartsWithMarks(line[n..], mark, m))
  {
    hide Indented, Unindented, LeadingSpaces, ClosesFence, StartsWithMarks, IsFence, AllMarks;
    var cut := SpacesCut(line);
    FitsIn(line, n);
    var text := line[n..];
    if n <= 3 && fence != [] {
      ClosingFence(text, fence);
    }
    if n <= 3 && fence == [] {
      forall mark, m | (mark == '`' || mark == '~') && m >= 3 && StartsWithMarks(text, mark, m)
        ensures FenceAfter(fence, line) == Marks(mark, m)
      {
        RunOpens(text, mark, m);
      }
      if OpensFence(text) {
        OpensByRun(text);
      }
    }
  }

  lemma RunOpens(text: string, mark: char, m: nat)
    requires (mark == '`' || mark == '~') && m >= 3 && StartsWithMarks(text, mark, m)
    ensures OpensFence(text) && text[0] == mark && LeadingMarks(text, text[0]) == Marks(mark, m)
  {
    RunIs(text, mark, m);
    assert text[..m] == Marks(mark, m);
    assert text[..3] == text[..m][..3];
  }

  lemma OpensByRun(text: string)
    requires OpensFence(text)
    ensures exists mark, m :: (mark == '`' || mark == '~') && m >= 3 && StartsWithMarks(text, mark, m)
  {
    var mark := text[0];
    assert mark == text[..3][0];
    LeadingMarksRun(text, mark);
    ThreeMarks(text, mark);
    var m := |LeadingMarks(text, mark)|;
    assert Marks('`', 3) == ['`', '`', '`'] && Marks('~', 3) == ['~', '~', '~'];
    assert StartsWithMarks(text, mark, m);
  }
}
