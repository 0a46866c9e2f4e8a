// Lines cut into sections by a fixed list of headings.
module SectionLayout {
  import opened Prelude
  import opened Text

  const HEADING_MARK := "## "

  datatype SummaryError =
    | Empty
    | UnexpectedHeading(line: string)
    | MissingHeading(heading: string)
    | DuplicateHeading(heading: string)
    | InvalidHeadingOrder
    | EmptySection(heading: string)
    | UnexpectedSplitTurnPrefix
    | MissingSplitTurnPrefix
    | EmptySplitTurnPrefix
    | RangeError
    | TokenLimit

  // --- heading lines --------------------------------------------------------

  function TrimLines(lines: seq<string>): (r: seq<string>)
    ensures |r| == |lines| && forall i :: 0 <= i < |lines| ==> r[i] == TrimEnd(lines[i])
  {
    seq(|lines|, i requires 0 <= i < |lines| => TrimEnd(lines[i]))
  }

  function FirstUnexpected(lines: seq<string>, headings: seq<string>): Option<string> {
    if lines == [] then None
    else if HEADING_MARK <= lines[0] && lines[0] !in headings then Some(lines[0])
    else FirstUnexpected(lines[1..], headings)
  }

  function Count(lines: seq<string>, line: string): nat {
    if lines == [] then 0
    else Count(lines[..|lines| - 1], line) + (if lines[|lines| - 1] == line then 1 else 0)
  }

  function IndexOfLine(lines: seq<string>, line: string): (i: int)
    ensures -1 <= i < |lines|
    ensures i >= 0 ==> lines[i] == line
  {
    if lines == [] then -1
    else if lines[0] == line then 0
    else
      var rest := IndexOfLine(lines[1..], line);
      if rest < 0 then -1 else rest + 1
  }

  // The first heading that is missing or written twice.
  function HeadingProblem(lines: seq<string>, headings: seq<string>): Option<SummaryError> {
    if headings == [] then None
    else if headings[0] !in lines then Some(MissingHeading(headings[0]))
    else if Count(lines, headings[0]) != 1 then Some(DuplicateHeading(headings[0]))
    else HeadingProblem(lines, headings[1..])
  }

  predicate InOrder(lines: seq<string>, headings: seq<string>) {
    && (headings != [] ==> IndexOfLine(lines, headings[0]) == 0)
    && forall k :: 0 < k < |headings| ==> Follows(lines, headings, k)
  }

  predicate Follows(lines: seq<string>, headings: seq<string>, k: nat)
    requires 0 < k < |headings|
  {
    IndexOfLine(lines, headings[k - 1]) < IndexOfLine(lines, headings[k])
  }

  // Where the section of heading k ends.
  function SectionEnd(lines: seq<string>, headings: seq<string>, k: nat): int
    requires k < |headings|
  {
    if k + 1 < |headings| then IndexOfLine(lines, headings[k + 1]) else |lines|
  }

  function Section(lines: seq<string>, headings: seq<string>, k: nat): seq<string>
    requires k < |headings|
  {
    Clamp(lines, IndexOfLine(lines, headings[k]) + 1, Max(0, SectionEnd(lines, headings, k)))
  }

  function Sections(lines: seq<string>, headings: seq<string>): (blocks: seq<seq<string>>)
    ensures |blocks| == |headings|
    ensures forall k :: 0 <= k < |headings| ==> blocks[k] == Section(lines, headings, k)
  {
    seq(|headings|, k requires 0 <= k < |headings| => Section(lines, headings, k))
  }

  function SplitSections(lines: seq<string>, headings: seq<string>): Result<seq<seq<string>>, SummaryError> {
    var unexpected := FirstUnexpected(lines, headings);
    var problem := HeadingProblem(lines, headings);
    if unexpected.Some? then Err(UnexpectedHeading(unexpected.value))
    else if problem.Some? then Err(problem.value)
    else if !InOrder(lines, headings) then Err(InvalidHeadingOrder)
    else Ok(Sections(lines, headings))
  }

  lemma SplitSectionsLength(lines: seq<string>, headings: seq<string>)
    ensures SplitSections(lines, headings).Ok? ==> |SplitSections(lines, headings).value| == |headings|
  {
  }

  // --- section layouts ------------------------------------------------------

  function Layout(headings: seq<string>, blocks: seq<seq<string>>): seq<string>
    requires |headings| == |blocks|
  {
    if headings == [] then []
    else
      var n := |headings| - 1;
      Layout(headings[..n], blocks[..n]) + [headings[n]] + blocks[n]
  }

  ghost predicate PlainLines(lines: seq<string>) {
    forall i :: 0 <= i < |lines| ==> !(HEADING_MARK <= lines[i])
  }

  ghost predicate PlainBlocks(blocks: seq<seq<string>>) {
    forall k :: 0 <= k < |blocks| ==> PlainLines(blocks[k])
  }

  ghost predicate HeadingsOk(headings: seq<string>) {
    && Distinct(headings)
    && forall k :: 0 <= k < |headings| ==>
         HEADING_MARK <= headings[k] && '\n' !in headings[k] && EndsSolid(headings[k])
  }

  lemma {:induction false} CountConcat(a: seq<string>, b: seq<string>, line: string)
    ensures Count(a + b, line) == Count(a, line) + Count(b, line)
  {
    if b == [] {
      assert a + b == a;
    } else {
      assert (a + b)[..|a + b| - 1] == a + b[..|b| - 1];
      CountConcat(a, b[..|b| - 1], line);
    }
  }

  lemma {:induction false} CountIn(lines: seq<string>, line: string)
    ensures Count(lines, line) > 0 <==> line in lines
  {
    if lines != [] {
      var n := |lines| - 1;
      CountIn(lines[..n], line);
      assert lines == lines[..n] + [lines[n]];
    }
  }

  lemma CountOnce(a: seq<string>, line: string, b: seq<string>)
    requires line !in a && line !in b
    ensures Count(a + [line] + b, line) == 1
    ensures IndexOfLine(a + [line] + b, line) == |a|
  {
    CountIn(a, line);
    CountIn(b, line);
    CountConcat(a + [line], b, line);
    IndexAfter(a, line, b);
  }

  lemma {:induction false} IndexAfter(a: seq<string>, line: string, b: seq<string>)
    requires line !in a
    ensures IndexOfLine(a + [line] + b, line) == |a|
  {
    if a != [] {
      assert (a + [line] + b)[1..] == a[1..] + [line] + b;
      IndexAfter(a[1..], line, b);
    }
  }

  // A line written once is found at its only position.
  lemma OnlyPosition(lines: seq<string>, line: string, p: nat)
    requires p < |lines| && lines[p] == line && Count(lines, line) == 1
    ensures IndexOfLine(lines, line) == p
  {
    var a, b := lines[..p], lines[p + 1..];
    assert lines == a + [line] + b;
    CountConcat(a + [line], b, line);
    CountIn(a, line);
    CountIn(b, line);
    IndexAfter(a, line, b);
  }

  lemma {:induction false} UnexpectedNone(lines: seq<string>, headings: seq<string>)
    ensures FirstUnexpected(lines, headings).None? <==> HeadingLinesKnown(lines, headings)
  {
    if lines != [] {
      UnexpectedNone(lines[1..], headings);
      assert lines == [lines[0]] + lines[1..];
      if HeadingLinesKnown(lines[1..], headings) {
        forall i | 1 <= i < |lines| && HEADING_MARK <= lines[i] ensures lines[i] in headings {
          assert lines[1..][i - 1] == lines[i];
        }
      }
    }
  }

  lemma {:induction false} ProblemNone(lines: seq<string>, headings: seq<string>)
    ensures HeadingProblem(lines, headings).None? <==> HeadingsOnce(lines, headings)
  {
    if headings != [] {
      CountIn(lines, headings[0]);
      ProblemNone(lines, headings[1..]);
      assert headings == [headings[0]] + headings[1..];
    }
  }

  lemma {:induction false} LayoutLines(headings: seq<string>, blocks: seq<seq<string>>, line: string)
    requires |headings| == |blocks|
    ensures line in Layout(headings, blocks) ==>
      line in headings || exists k :: 0 <= k < |blocks| && line in blocks[k]
  {
    if headings != [] {
      var n := |headings| - 1;
      LayoutLines(headings[..n], blocks[..n], line);
      if line in Layout(headings[..n], blocks[..n]) && line !in headings[..n] {
        var k :| 0 <= k < n && line in blocks[..n][k];
        assert line in blocks[k];
      }
    }
  }

  // The layout around heading k.
  lemma {:induction false} LayoutAround(headings: seq<string>, blocks: seq<seq<string>>, k: nat)
    returns (rest: seq<string>)
    requires k < |headings| == |blocks|
    ensures Layout(headings, blocks) == Layout(headings[..k], blocks[..k]) + [headings[k]] + (blocks[k] + rest)
    ensures Layout(headings[..k + 1], blocks[..k + 1]) == Layout(headings[..k], blocks[..k]) + [headings[k]] + blocks[k]
    ensures |Layout(headings[..k + 1], blocks[..k + 1])| == |Layout(headings[..k], blocks[..k])| + 1 + |blocks[k]|
    ensures k + 1 == |headings| ==> rest == []
    ensures forall line :: line in rest ==>
      line in headings[k + 1..] || exists j :: k < j < |blocks| && line in blocks[j]
  {
    assert headings[..k + 1][..k] == headings[..k] && blocks[..k + 1][..k] == blocks[..k];
    var n := |headings| - 1;
    if k == n {
      assert headings[..k + 1] == headings && blocks[..k + 1] == blocks;
      rest := [];
    } else {
      assert headings[..n][..k] == headings[..k] && blocks[..n][..k] == blocks[..k];
      var inner := LayoutAround(headings[..n], blocks[..n], k);
      rest := inner + [headings[n]] + blocks[n];
      assert blocks[k] + rest == (blocks[k] + inner) + [headings[n]] + blocks[n];
      forall line | line in rest
        ensures line in headings[k + 1..] || exists j :: k < j < |blocks| && line in blocks[j]
      {
        if line in inner {
          assert forall j :: k < j < n ==> blocks[..n][j] == blocks[j];
        } else if line in blocks[n] {
        } else {
          assert headings[k + 1..][n - k - 1] == line;
        }
      }
    }
  }

  // Heading k sits right after the layout of what comes before it, and nowhere else.
  lemma LayoutHeading(headings: seq<string>, blocks: seq<seq<string>>, k: nat)
    requires k < |headings| == |blocks| && HeadingsOk(headings) && PlainBlocks(blocks)
    ensures var lines := Layout(headings, blocks);
      && Count(lines, headings[k]) == 1
      && IndexOfLine(lines, headings[k]) == |Layout(headings[..k], blocks[..k])|
      && |Layout(headings[..k + 1], blocks[..k + 1])|
          == |Layout(headings[..k], blocks[..k])| + 1 + |blocks[k]| <= |lines|
      && lines[|Layout(headings[..k], blocks[..k])| + 1..|Layout(headings[..k + 1], blocks[..k + 1])|] == blocks[k]
  {
    var rest := LayoutAround(headings, blocks, k);
    var before := Layout(headings[..k], blocks[..k]);
    LayoutLines(headings[..k], blocks[..k], headings[k]);
    assert forall j :: 0 <= j < |blocks| ==> headings[k] !in blocks[j];
    assert headings[k] !in headings[..k] && headings[k] !in headings[k + 1..];
    assert headings[k] !in before;
    CountOnce(before, headings[k], blocks[k] + rest);
  }

  lemma LayoutInOrder(headings: seq<string>, blocks: seq<seq<string>>)
    requires |headings| == |blocks| && HeadingsOk(headings) && PlainBlocks(blocks)
    ensures InOrder(Layout(headings, blocks), headings)
  {
    var lines := Layout(headings, blocks);
    if headings != [] { LayoutHeading(headings, blocks, 0); }
    forall k | 0 < k < |headings| ensures Follows(lines, headings, k) {
      LayoutHeading(headings, blocks, k - 1);
      LayoutHeading(headings, blocks, k);
    }
  }

  lemma LayoutChecked(headings: seq<string>, blocks: seq<seq<string>>)
    requires |headings| == |blocks| && HeadingsOk(headings) && PlainBlocks(blocks)
    ensures HeadingLinesKnown(Layout(headings, blocks), headings)
    ensures HeadingsOnce(Layout(headings, blocks), headings)
  {
    var lines := Layout(headings, blocks);
    forall i | 0 <= i < |lines| && HEADING_MARK <= lines[i] ensures lines[i] in headings {
      LayoutLines(headings, blocks, lines[i]);
    }
    forall k | 0 <= k < |headings| ensures Count(lines, headings[k]) == 1 { LayoutHeading(headings, blocks, k); }
  }

  // A layout of plain blocks is accepted, and read back as those blocks.
  lemma LayoutAccepted(headings: seq<string>, blocks: seq<seq<string>>)
    requires |headings| == |blocks| && HeadingsOk(headings) && PlainBlocks(blocks)
    ensures SplitSections(Layout(headings, blocks), headings) == Ok(blocks)
  {
    var lines := Layout(headings, blocks);
    LayoutChecked(headings, blocks);
    UnexpectedNone(lines, headings);
    ProblemNone(lines, headings);
    LayoutInOrder(headings, blocks);
    forall k | 0 <= k < |headings| ensures Sections(lines, headings)[k] == blocks[k] {
      SectionIsBlock(headings, blocks, k);
    }
    assert Sections(lines, headings) == blocks;
  }

  lemma SectionIsBlock(headings: seq<string>, blocks: seq<seq<string>>, k: nat)
    requires k < |headings| == |blocks| && HeadingsOk(headings) && PlainBlocks(blocks)
    ensures var lines := Layout(headings, blocks);
      Section(lines, headings, k) == blocks[k]
  {
    LayoutHeading(headings, blocks, k);
    if k + 1 < |headings| {
      LayoutHeading(headings, blocks, k + 1);
    } else {
      assert headings[..k + 1] == headings && blocks[..k + 1] == blocks;
    }
  }

  lemma {:induction false} OrderedBelow(lines: seq<string>, headings: seq<string>, i: nat, j: nat)
    requires InOrder(lines, headings) && i < j < |headings|
    ensures IndexOfLine(lines, headings[i]) < IndexOfLine(lines, headings[j])
    decreases j - i
  {
    if i + 1 < j {
      OrderedBelow(lines, headings, i, j - 1);
    }
    assert Follows(lines, headings, j);
  }

  // Whatever is accepted is such a layout.
  lemma AcceptedLayout(lines: seq<string>, headings: seq<string>)
    requires headings != [] && HeadingsOk(headings) && SplitSections(lines, headings).Ok?
    ensures var blocks := SplitSections(lines, headings).value;
      |blocks| == |headings| && PlainBlocks(blocks) && lines == Layout(headings, blocks)
  {
    var blocks := Sections(lines, headings);
    UnexpectedNone(lines, headings);
    ProblemNone(lines, headings);
    AcceptedUpTo(lines, headings, |headings|);
    assert headings[..|headings|] == headings && blocks[..|headings|] == blocks;
    forall k | 0 <= k < |headings| ensures PlainLines(blocks[k]) { AcceptedPlain(lines, headings, k); }
  }

  function Cursor(lines: seq<string>, headings: seq<string>, k: nat): int
    requires k <= |headings|
  {
    if k == |headings| then |lines| else IndexOfLine(lines, headings[k])
  }

  lemma LayoutSnoc(headings: seq<string>, blocks: seq<seq<string>>, k: nat)
    requires k < |headings| == |blocks|
    ensures Layout(headings[..k + 1], blocks[..k + 1]) == Layout(headings[..k], blocks[..k]) + [headings[k]] + blocks[k]
  {
    var rest := LayoutAround(headings, blocks, k);
  }

  lemma CursorOrder(lines: seq<string>, headings: seq<string>, k: nat)
    requires k < |headings| && InOrder(lines, headings)
    ensures 0 <= Cursor(lines, headings, k) < Cursor(lines, headings, k + 1) <= |lines|
  {
    if k > 0 { OrderedBelow(lines, headings, 0, k); }
    if k + 1 < |headings| { assert Follows(lines, headings, k + 1); }
  }

  lemma SectionBounds(lines: seq<string>, headings: seq<string>, k: nat)
    requires k < |headings|
    requires 0 <= Cursor(lines, headings, k) < Cursor(lines, headings, k + 1) <= |lines|
    ensures lines[Cursor(lines, headings, k)] == headings[k]
    ensures Section(lines, headings, k) == lines[Cursor(lines, headings, k) + 1..Cursor(lines, headings, k + 1)]
  {
  }

  // Cutting a sequence at a position.
  lemma CutAt(lines: seq<string>, from: nat, to: nat)
    requires from < to <= |lines|
    ensures lines[..to] == lines[..from] + [lines[from]] + lines[from + 1..to]
  {
  }

  lemma {:induction false} AcceptedUpTo(lines: seq<string>, headings: seq<string>, k: nat)
    requires headings != [] && k <= |headings| && InOrder(lines, headings)
    ensures 0 <= Cursor(lines, headings, k) <= |lines|
    ensures Layout(headings[..k], Sections(lines, headings)[..k]) == lines[..Cursor(lines, headings, k)]
  {
    if k > 0 {
      AcceptedUpTo(lines, headings, k - 1);
      CursorOrder(lines, headings, k - 1);
      SectionBounds(lines, headings, k - 1);
      LayoutSnoc(headings, Sections(lines, headings), k - 1);
      CutAt(lines, Cursor(lines, headings, k - 1), Cursor(lines, headings, k));
    }
  }

  // No heading lies strictly between the start and the end of a section.
  lemma HeadingElsewhere(lines: seq<string>, headings: seq<string>, k: nat, j: nat)
    requires k < |headings| && j < |headings| && InOrder(lines, headings)
    ensures IndexOfLine(lines, headings[j]) <= Cursor(lines, headings, k)
         || IndexOfLine(lines, headings[j]) >= Cursor(lines, headings, k + 1)
  {
    if j < k {
      OrderedBelow(lines, headings, j, k);
    } else if k + 1 < j {
      OrderedBelow(lines, headings, k + 1, j);
    }
  }

  ghost predicate HeadingLinesKnown(lines: seq<string>, headings: seq<string>) {
    forall i :: 0 <= i < |lines| && HEADING_MARK <= lines[i] ==> lines[i] in headings
  }

  ghost predicate HeadingsOnce(lines: seq<string>, headings: seq<string>) {
    forall j :: 0 <= j < |headings| ==> Count(lines, headings[j]) == 1
  }

  lemma LineInSection(lines: seq<string>, headings: seq<string>, k: nat, p: nat)
    requires k < |headings| && InOrder(lines, headings)
    requires HeadingLinesKnown(lines, headings) && HeadingsOnce(lines, headings)
    requires Cursor(lines, headings, k) < p < Cursor(lines, headings, k + 1) <= |lines|
    ensures !(HEADING_MARK <= lines[p])
  {
    if HEADING_MARK <= lines[p] {
      var j :| 0 <= j < |headings| && headings[j] == lines[p];
      OnlyPosition(lines, headings[j], p);
      HeadingElsewhere(lines, headings, k, j);
    }
  }

  lemma AcceptedPlain(lines: seq<string>, headings: seq<string>, k: nat)
    requires k < |headings| && InOrder(lines, headings)
    requires HeadingLinesKnown(lines, headings) && HeadingsOnce(lines, headings)
    ensures PlainLines(Section(lines, headings, k))
  {
    CursorOrder(lines, headings, k);
    SectionBounds(lines, headings, k);
    var block := Section(lines, headings, k);
    var from := Cursor(lines, headings, k) + 1;
    forall i | 0 <= i < |block| ensures !(HEADING_MARK <= block[i]) {
      assert block[i] == lines[from + i];
      LineInSection(lines, headings, k, from + i);
    }
  }

  // A line that looks like a heading inside a block makes the layout unreadable.
  lemma CrowdedLayout(headings: seq<string>, blocks: seq<seq<string>>, k: nat, i: nat)
    requires k < |headings| == |blocks| && i < |blocks[k]| && HEADING_MARK <= blocks[k][i]
    ensures SplitSections(Layout(headings, blocks), headings).Err?
  {
    var lines := Layout(headings, blocks);
    var line := blocks[k][i];
    CountLayout(headings, blocks, k, line);
    CountIn(blocks[k], line);
    CountIn(lines, line);
    CountIn(headings, line);
    UnexpectedNone(lines, headings);
    ProblemNone(lines, headings);
    if line in headings {
      var j :| 0 <= j < |headings| && headings[j] == line;
      assert Count(lines, headings[j]) != 1;
    }
  }

  lemma {:induction false} CountLayout(headings: seq<string>, blocks: seq<seq<string>>, k: nat, line: string)
    requires k < |headings| == |blocks|
    ensures Count(Layout(headings, blocks), line) >= Count(headings, line) + Count(blocks[k], line)
  {
    var n := |headings| - 1;
    var front := Layout(headings[..n], blocks[..n]);
    CountConcat(front + [headings[n]], blocks[n], line);
    CountConcat(front, [headings[n]], line);
    CountConcat(headings[..n], [headings[n]], line);
    assert headings == headings[..n] + [headings[n]];
    if k < n {
      CountLayout(headings[..n], blocks[..n], k, line);
    } else {
      CountHeadings(headings[..n], blocks[..n], line);
    }
  }

  lemma {:induction false} CountHeadings(headings: seq<string>, blocks: seq<seq<string>>, line: string)
    requires |headings| == |blocks|
    ensures Count(Layout(headings, blocks), line) >= Count(headings, line)
  {
    if headings != [] {
      var n := |headings| - 1;
      CountHeadings(headings[..n], blocks[..n], line);
      CountConcat(Layout(headings[..n], blocks[..n]) + [headings[n]], blocks[n], line);
      CountConcat(Layout(headings[..n], blocks[..n]), [headings[n]], line);
    }
  }
}
