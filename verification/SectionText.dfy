// Sectioned text: parsing it into one body per heading, and printing it back.
module SectionText {
  import opened Prelude
  import opened Text
  import opened SectionLayout

  function BodyOf(block: seq<string>): string {
    Trim(Join(block, '\n'))
  }

  function BodiesOf(blocks: seq<seq<string>>): (bodies: seq<string>)
    ensures |bodies| == |blocks| && forall k :: 0 <= k < |blocks| ==> bodies[k] == BodyOf(blocks[k])
  {
    seq(|blocks|, k requires 0 <= k < |blocks| => BodyOf(blocks[k]))
  }

  function FirstEmpty(bodies: seq<string>, headings: seq<string>): Option<string>
    requires |bodies| == |headings|
  {
    if bodies == [] then None
    else if bodies[0] == "" then Some(headings[0])
    else FirstEmpty(bodies[1..], headings[1..])
  }

  function ParseSections(main: string, headings: seq<string>): Result<seq<string>, SummaryError> {
    var split := SplitSections(TrimLines(SplitAt(main, '\n')), headings);
    if split.Err? then Err(split.error)
    else
      SplitSectionsLength(TrimLines(SplitAt(main, '\n')), headings);
      var bodies := BodiesOf(split.value);
      var empty := FirstEmpty(bodies, headings);
      if empty.Some? then Err(EmptySection(empty.value)) else Ok(bodies)
  }

  function Titled(headings: seq<string>, bodies: seq<string>): seq<string> {
    seq(Min(|headings|, |bodies|), k requires 0 <= k < |headings| && k < |bodies| => headings[k] + ['\n'] + bodies[k])
  }

  function RenderSections(headings: seq<string>, bodies: seq<string>): string {
    Join(Titled(headings, bodies), '\n')
  }

  // --- what the parser returns ----------------------------------------------

  const HEADING_BREAK := "\n## "

  // Non-empty, trimmed, no line ends in white space, and no line after the
  // first looks like a heading.
  ghost predicate Canonical(body: string) {
    && body != "" && StartsSolid(body) && EndsSolid(body)
    && RightTrimmed(body)
    && !Occurs(body, HEADING_BREAK)
  }

  ghost predicate AllCanonical(bodies: seq<string>) {
    forall k :: 0 <= k < |bodies| ==> Canonical(bodies[k])
  }

  // The first line looks like a heading.
  predicate Headed(body: string) {
    HEADING_MARK <= body
  }

  ghost predicate NoneHeaded(bodies: seq<string>) {
    forall k :: 0 <= k < |bodies| ==> !Headed(bodies[k])
  }

  function Blocks(bodies: seq<string>): (blocks: seq<seq<string>>)
    ensures |blocks| == |bodies| && forall k :: 0 <= k < |bodies| ==> blocks[k] == SplitAt(bodies[k], '\n')
  {
    seq(|bodies|, k requires 0 <= k < |bodies| => SplitAt(bodies[k], '\n'))
  }

  lemma LinesOfBody(body: string)
    ensures SomeStarts(SplitAt(body, '\n'), HEADING_MARK) <==> Headed(body) || Occurs(body, HEADING_BREAK)
  {
    var lines := SplitAt(body, '\n');
    FirstLineStarts(body, HEADING_MARK);
    LinesStarting(body, HEADING_MARK);
    assert lines == [lines[0]] + lines[1..];
    StartsCons(lines[0], lines[1..], HEADING_MARK);
    assert ['\n'] + HEADING_MARK == HEADING_BREAK;
  }

  lemma CanonicalBlock(body: string)
    requires Canonical(body)
    ensures AllEndSolid(SplitAt(body, '\n'))
    ensures BodyOf(SplitAt(body, '\n')) == body
    ensures PlainLines(SplitAt(body, '\n')) <==> !Headed(body)
  {
    RightTrimmedLines(body);
    JoinSplit(body, '\n');
    TrimSolid(body);
    LinesOfBody(body);
  }

  lemma TrimKeeps(s: string) returns (before: string, after: string)
    ensures s == before + Trim(s) + after
  {
    TrimEndIsPrefix(s);
    var front := TrimEnd(s);
    TrimStartIsSuffix(front);
    before := front[..|front| - |Trim(s)|];
    after := s[|front|..];
    assert front == before + Trim(s);
    assert s == front + after;
  }

  lemma TrimRightTrimmed(s: string)
    requires RightTrimmed(s)
    ensures RightTrimmed(Trim(s))
  {
    var before, after := TrimKeeps(s);
    TrimIsSolid(s);
    var t := Trim(s);
    forall i | 0 <= i < |t| && IsSpace(t[i]) && t[i] != '\n' ensures i + 1 < |t| && t[i + 1] != '\n' {
      assert s[|before| + i] == t[i];
      assert i + 1 < |t| ==> s[|before| + i + 1] == t[i + 1];
    }
  }

  // The body of a block of right-trimmed plain lines.
  lemma BlockCanonical(block: seq<string>)
    requires AllEndSolid(block) && PlainLines(block)
    requires forall i :: 0 <= i < |block| ==> '\n' !in block[i]
    ensures BodyOf(block) != "" ==> Canonical(BodyOf(block))
  {
    if block != [] {
      var text := Join(block, '\n');
      SplitJoin(block, '\n');
      RightTrimmedLines(text);
      LinesOfBody(text);
      TrimRightTrimmed(text);
      TrimIsSolid(text);
      if Occurs(Trim(text), HEADING_BREAK) {
        var before, after := TrimKeeps(text);
        OccursWithin(before, Trim(text), after, HEADING_BREAK);
      }
    }
  }

  lemma {:induction false} NoneEmpty(bodies: seq<string>, headings: seq<string>)
    requires |bodies| == |headings|
    ensures FirstEmpty(bodies, headings).None? <==> forall k :: 0 <= k < |bodies| ==> bodies[k] != ""
  {
    if bodies != [] {
      NoneEmpty(bodies[1..], headings[1..]);
      assert bodies == [bodies[0]] + bodies[1..];
    }
  }

  lemma TrimmedLines(s: string)
    ensures AllEndSolid(TrimLines(SplitAt(s, '\n')))
    ensures forall i :: 0 <= i < |TrimLines(SplitAt(s, '\n'))| ==> '\n' !in TrimLines(SplitAt(s, '\n'))[i]
  {
    var lines := SplitAt(s, '\n');
    JoinSplit(s, '\n');
    forall i | 0 <= i < |lines| ensures EndsSolid(TrimEnd(lines[i])) && '\n' !in TrimEnd(lines[i]) {
      TrimEndIsPrefix(lines[i]);
    }
  }

  lemma {:induction false} BlockLines(headings: seq<string>, blocks: seq<seq<string>>, k: nat)
    requires k < |headings| == |blocks|
    ensures forall i :: 0 <= i < |blocks[k]| ==> blocks[k][i] in Layout(headings, blocks)
  {
    var rest := LayoutAround(headings, blocks, k);
  }

  // Every parsed body is canonical.
  lemma ParsedCanonical(main: string, headings: seq<string>)
    requires headings != [] && HeadingsOk(headings) && ParseSections(main, headings).Ok?
    ensures var bodies := ParseSections(main, headings).value; |bodies| == |headings| && AllCanonical(bodies)
  {
    var lines := TrimLines(SplitAt(main, '\n'));
    AcceptedLayout(lines, headings);
    var blocks := SplitSections(lines, headings).value;
    TrimmedLines(main);
    NoneEmpty(BodiesOf(blocks), headings);
    forall k | 0 <= k < |blocks| ensures Canonical(BodyOf(blocks[k])) {
      BlockLines(headings, blocks, k);
      assert BodiesOf(blocks)[k] != "";
      BlockCanonical(blocks[k]);
    }
  }

  // --- printing and parsing again -------------------------------------------

  lemma TitledSnoc(headings: seq<string>, bodies: seq<string>)
    requires |headings| == |bodies| > 1
    ensures var n := |headings| - 1;
      RenderSections(headings, bodies)
        == RenderSections(headings[..n], bodies[..n]) + ['\n'] + (headings[n] + ['\n'] + bodies[n])
  {
    var n := |headings| - 1;
    var last := headings[n] + ['\n'] + bodies[n];
    assert Titled(headings, bodies) == Titled(headings[..n], bodies[..n]) + [last];
    JoinConcat(Titled(headings[..n], bodies[..n]), [last], '\n');
  }

  lemma BlocksSnoc(headings: seq<string>, bodies: seq<string>)
    requires |headings| == |bodies| > 0
    ensures var n := |headings| - 1;
      Layout(headings, Blocks(bodies))
        == Layout(headings[..n], Blocks(bodies[..n])) + ([headings[n]] + SplitAt(bodies[n], '\n'))
  {
    var n := |headings| - 1;
    assert Blocks(bodies)[..n] == Blocks(bodies[..n]);
  }

  lemma {:induction false} RenderedLines(headings: seq<string>, bodies: seq<string>)
    requires |headings| == |bodies| > 0 && HeadingsOk(headings)
    ensures SplitAt(RenderSections(headings, bodies), '\n') == Layout(headings, Blocks(bodies))
  {
    var n := |headings| - 1;
    SplitOnce(headings[n], bodies[n], '\n');
    BlocksSnoc(headings, bodies);
    if n == 0 {
      assert Titled(headings, bodies) == [headings[n] + ['\n'] + bodies[n]];
    } else {
      TitledSnoc(headings, bodies);
      SplitAcross(RenderSections(headings[..n], bodies[..n]), headings[n] + ['\n'] + bodies[n], '\n');
      RenderedLines(headings[..n], bodies[..n]);
    }
  }

  lemma SolidLine(line: string)
    requires EndsSolid(line)
    ensures TrimEnd(line) == line
  {
  }

  lemma LayoutSolid(headings: seq<string>, bodies: seq<string>)
    requires |headings| == |bodies| && HeadingsOk(headings) && AllCanonical(bodies)
    ensures TrimLines(Layout(headings, Blocks(bodies))) == Layout(headings, Blocks(bodies))
  {
    var blocks := Blocks(bodies);
    var lines := Layout(headings, blocks);
    forall i | 0 <= i < |lines| ensures TrimEnd(lines[i]) == lines[i] {
      LayoutLines(headings, blocks, lines[i]);
      if lines[i] in headings {
        SolidLine(lines[i]);
      } else {
        var k :| 0 <= k < |blocks| && lines[i] in blocks[k];
        CanonicalBlock(bodies[k]);
        SolidLine(lines[i]);
      }
    }
  }

  lemma CanonicalBlocks(bodies: seq<string>)
    requires AllCanonical(bodies)
    ensures BodiesOf(Blocks(bodies)) == bodies && (PlainBlocks(Blocks(bodies)) <==> NoneHeaded(bodies))
  {
    forall k | 0 <= k < |bodies|
      ensures BodyOf(Blocks(bodies)[k]) == bodies[k] && (PlainLines(Blocks(bodies)[k]) <==> !Headed(bodies[k]))
    {
      CanonicalBlock(bodies[k]);
    }
  }

  lemma HeadedCrowds(headings: seq<string>, bodies: seq<string>)
    requires |headings| == |bodies| && !NoneHeaded(bodies)
    ensures SplitSections(Layout(headings, Blocks(bodies)), headings).Err?
  {
    var k :| 0 <= k < |bodies| && Headed(bodies[k]);
    FirstLineStarts(bodies[k], HEADING_MARK);
    CrowdedLayout(headings, Blocks(bodies), k, 0);
  }

  // Parsing what was printed gives it back exactly when no body starts like a heading.
  lemma RenderParse(headings: seq<string>, bodies: seq<string>)
    requires |headings| == |bodies| > 0 && HeadingsOk(headings) && AllCanonical(bodies)
    ensures NoneHeaded(bodies) ==> ParseSections(RenderSections(headings, bodies), headings) == Ok(bodies)
    ensures !NoneHeaded(bodies) ==> ParseSections(RenderSections(headings, bodies), headings).Err?
  {
    RenderedLines(headings, bodies);
    LayoutSolid(headings, bodies);
    CanonicalBlocks(bodies);
    if NoneHeaded(bodies) {
      LayoutAccepted(headings, Blocks(bodies));
      NoneEmpty(bodies, headings);
    } else {
      HeadedCrowds(headings, bodies);
    }
  }
}
