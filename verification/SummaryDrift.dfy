// Accepted summaries that do not survive being printed: trimming turns an indented
// line into a heading, or a line of blanks into half of an opening marker.
module SummaryDrift {
  import opened Prelude
  import opened Text
  import opened SectionLayout
  import opened SectionText
  import opened SummaryText
  import opened CompactionFormat

  // --- what a section written like this is read as --------------------------

  function LinesRead(body: string): seq<string> {
    TrimLines(SplitAt(body, '\n'))
  }

  ghost predicate ReadAs(written: string, seen: string) {
    PlainLines(LinesRead(written)) && seen == BodyOf(LinesRead(written)) && seen != ""
  }

  function BlocksRead(written: seq<string>): (blocks: seq<seq<string>>)
    ensures |blocks| == |written| && forall k :: 0 <= k < |written| ==> blocks[k] == LinesRead(written[k])
  {
    seq(|written|, k requires 0 <= k < |written| => LinesRead(written[k]))
  }

  lemma TrimLinesConcat(a: seq<string>, b: seq<string>)
    ensures TrimLines(a + b) == TrimLines(a) + TrimLines(b)
  {
  }

  lemma {:induction false} LayoutRead(headings: seq<string>, written: seq<string>)
    requires |headings| == |written| && HeadingsOk(headings)
    ensures TrimLines(Layout(headings, Blocks(written))) == Layout(headings, BlocksRead(written))
  {
    if headings != [] {
      var n := |headings| - 1;
      var front := Layout(headings[..n], Blocks(written)[..n]);
      assert Blocks(written)[..n] == Blocks(written[..n]) && BlocksRead(written)[..n] == BlocksRead(written[..n]);
      LayoutRead(headings[..n], written[..n]);
      TrimLinesConcat(front + [headings[n]], SplitAt(written[n], '\n'));
      TrimLinesConcat(front, [headings[n]]);
      SolidLine(headings[n]);
      assert TrimLines([headings[n]]) == [headings[n]];
    }
  }

  // Sections are read one by one.
  lemma SectionsReadAs(headings: seq<string>, written: seq<string>, seen: seq<string>)
    requires |headings| == |written| == |seen| > 0 && HeadingsOk(headings)
    requires forall k :: 0 <= k < |headings| ==> ReadAs(written[k], seen[k])
    ensures ParseSections(RenderSections(headings, written), headings) == Ok(seen)
  {
    RenderedLines(headings, written);
    LayoutRead(headings, written);
    BlocksAccepted(headings, BlocksRead(written), seen);
  }

  lemma BlocksAccepted(headings: seq<string>, blocks: seq<seq<string>>, seen: seq<string>)
    requires |headings| == |blocks| == |seen| > 0 && HeadingsOk(headings) && PlainBlocks(blocks)
    requires forall k :: 0 <= k < |headings| ==> seen[k] == BodyOf(blocks[k]) && seen[k] != ""
    ensures SplitSections(Layout(headings, blocks), headings) == Ok(blocks)
    ensures BodiesOf(blocks) == seen && FirstEmpty(seen, headings).None?
  {
    LayoutAccepted(headings, blocks);
    NoneEmpty(seen, headings);
  }

  // --- texts without an empty line ------------------------------------------

  // No line is empty, at the ends or in between.
  predicate NoEmptyLine(s: string) {
    && s != "" && s[0] != '\n' && s[|s| - 1] != '\n'
    && forall i :: 0 < i < |s| ==> s[i - 1] != '\n' || s[i] != '\n'
  }

  lemma GluedLines(a: string, b: string)
    requires NoEmptyLine(a) && NoEmptyLine(b)
    ensures NoEmptyLine(a + ['\n'] + b)
  {
  }

  lemma {:induction false} JoinedLines(parts: seq<string>)
    requires parts != [] && forall k :: 0 <= k < |parts| ==> NoEmptyLine(parts[k])
    ensures NoEmptyLine(Join(parts, '\n'))
  {
    if |parts| > 1 {
      JoinedLines(parts[1..]);
      GluedLines(parts[0], Join(parts[1..], '\n'));
    }
  }

  lemma NoMarkerWithin(f: Format, bodies: seq<string>)
    requires |f.headings| == |bodies| > 0
    requires forall k :: 0 <= k < |bodies| ==> NoEmptyLine(f.headings[k]) && NoEmptyLine(bodies[k])
    ensures !Occurs(RenderSections(f.headings, bodies), OpenMarker(f))
  {
    var parts, t := Titled(f.headings, bodies), OpenMarker(f);
    forall k | 0 <= k < |parts| ensures NoEmptyLine(parts[k]) { GluedLines(f.headings[k], bodies[k]); }
    JoinedLines(parts);
    assert t[0] == t[1] == '\n';
    if Occurs(Join(parts, '\n'), t) { EmptyLineInside(Join(parts, '\n'), t); }
  }

  lemma EmptyLineInside(s: string, t: string)
    requires Occurs(s, t) && |t| > 1 && t[0] == t[1] == '\n'
    ensures !NoEmptyLine(s)
  {
    var i: nat :| i <= |s| && IsAt(s, t, i);
    assert s[i..i + |t|][0] == s[i] && s[i..i + |t|][1] == s[i + 1];
  }

  // --- printing what was read -----------------------------------------------

  // What is written is accepted; what is printed from the reading is not read that way.
  ghost predicate Drifts(f: Format, written: seq<string>, seen: seq<string>) {
    && Parse(f, RenderSections(f.headings, written), false) == Ok(Summary(seen, None))
    && Parse(f, Render(f, Summary(seen, None)), false) != Ok(Summary(seen, None))
  }

  lemma UnstableReading(f: Format, written: seq<string>, seen: seq<string>)
    requires FormatOk(f) && |f.headings| == |written| == |seen|
    requires forall k :: 0 <= k < |seen| ==>
      ReadAs(written[k], seen[k]) && NoEmptyLine(f.headings[k]) && NoEmptyLine(written[k])
    requires !Stable(f, Summary(seen, None))
    ensures Drifts(f, written, seen)
  {
    var text := RenderSections(f.headings, written);
    NoMarkerWithin(f, written);
    IndexFromFirst(text, OpenMarker(f), 0);
    SectionsReadAs(f.headings, written, seen);
    ParsedWellShaped(f, text, false);
    Reparse(f, Summary(seen, None));
  }

  // --- the two ways ---------------------------------------------------------

  // Bodies that are all the same but for the first.
  function WithFirst(f: Format, first: string): (bodies: seq<string>)
    ensures |bodies| == |f.headings|
    ensures forall k :: 0 <= k < |bodies| ==> bodies[k] == if k == 0 then first else "b"
  {
    seq(|f.headings|, k => if k == 0 then first else "b")
  }

  ghost predicate Usable(f: Format) {
    FormatOk(f) && forall k :: 0 <= k < |f.headings| ==> NoEmptyLine(f.headings[k])
  }

  lemma CompactionFormatUsable()
    ensures Usable(COMPACTION_FORMAT)
  {
    CompactionFormatOk();
    forall k | 0 <= k < |HEADINGS| ensures NoEmptyLine(HEADINGS[k]) { HeadingShape(k); }
  }

  lemma FirstDrifts(f: Format, written: string, seen: string)
    requires Usable(f) && ReadAs(written, seen) && NoEmptyLine(written)
    requires !Stable(f, Summary(WithFirst(f, seen), None))
    ensures Drifts(f, WithFirst(f, written), WithFirst(f, seen))
  {
    OneLine("b", "b");
    UnstableReading(f, WithFirst(f, written), WithFirst(f, seen));
  }

  lemma OneLine(written: string, seen: string)
    requires '\n' !in written && EndsSolid(written) && !(HEADING_MARK <= written)
    requires seen == TrimStart(written) && seen != ""
    ensures ReadAs(written, seen)
  {
    SplitNone(written, '\n');
    SolidLine(written);
    assert LinesRead(written) == [written];
  }

  // The first section opens with an indented heading: accepted, trimmed into a
  // heading, and rejected when printed.
  lemma IndentedHeadingDrifts()
    ensures var f := COMPACTION_FORMAT;
      && Drifts(f, WithFirst(f, " ## x"), WithFirst(f, "## x"))
      && !NoneHeaded(WithFirst(f, "## x"))
  {
    CompactionFormatUsable();
    IndentedIsTrimmed();
    HeadedFirst(COMPACTION_FORMAT, "## x");
    FirstDrifts(COMPACTION_FORMAT, " ## x", "## x");
  }

  lemma HeadedFirst(f: Format, seen: string)
    requires f.headings != [] && Headed(seen)
    ensures !NoneHeaded(WithFirst(f, seen))
  {
    assert Headed(WithFirst(f, seen)[0]);
  }

  lemma IndentedIsTrimmed()
    ensures ReadAs(" ## x", "## x")
  {
    assert " ## x"[1..] == "## x" && !IsSpace("## x"[0]) && !IsSpace(" ## x"[4]);
    OneLine(" ## x", "## x");
  }

  // A line of blanks before a line like the opening marker.
  function BlanksThen(openLine: string): string {
    "b" + ['\n'] + (" " + ['\n'] + (openLine + ['\n'] + "c"))
  }

  lemma BlanksLines(openLine: string)
    requires '\n' !in openLine && openLine != "" && EndsSolid(openLine) && !(HEADING_MARK <= openLine)
    ensures LinesRead(BlanksThen(openLine)) == ["b", "", openLine, "c"]
  {
    SplitOnce("b", " " + ['\n'] + (openLine + ['\n'] + "c"), '\n');
    SplitOnce(" ", openLine + ['\n'] + "c", '\n');
    SplitOnce(openLine, "c", '\n');
    SplitNone("c", '\n');
    assert SplitAt(BlanksThen(openLine), '\n') == ["b", " ", openLine, "c"];
    assert TrimEnd(" ") == "" by { assert IsSpace(" "[0]) && " "[..0] == ""; }
    SolidLine(openLine);
  }

  lemma JoinFour(a: string, b: string, c: string)
    ensures Join([a, "", b, c], '\n') == a + ("\n\n" + b + "\n") + c
  {
    JoinConcat([a, ""], [b, c], '\n');
    assert [a, ""] + [b, c] == [a, "", b, c];
    assert [a, ""][1..] == [""] && [b, c][1..] == [c];
  }

  lemma BlanksReadAs(f: Format)
    requires FormatOk(f) && EndsSolid(f.openLine) && !(HEADING_MARK <= f.openLine)
    ensures ReadAs(BlanksThen(f.openLine), "b" + OpenMarker(f) + "c")
    ensures NoEmptyLine(BlanksThen(f.openLine))
  {
    BlanksLines(f.openLine);
    JoinFour("b", f.openLine, "c");
    TrimSolid("b" + OpenMarker(f) + "c");
    GluedLines(f.openLine, "c");
    GluedLines(" ", f.openLine + ['\n'] + "c");
    GluedLines("b", " " + ['\n'] + (f.openLine + ['\n'] + "c"));
  }

  lemma MarkerInside(f: Format, bodies: seq<string>)
    requires |f.headings| == |bodies| > 0 && bodies[0] == "b" + OpenMarker(f) + "c"
    ensures Occurs(RenderSections(f.headings, bodies), OpenMarker(f)) && !Stable(f, Summary(bodies, None))
  {
    var parts := Titled(f.headings, bodies);
    var before, after := JoinAround(parts, 0, "", '\n');
    assert parts[0] == (f.headings[0] + ['\n'] + "b") + OpenMarker(f) + "c";
    assert IsAt(OpenMarker(f), OpenMarker(f), 0);
    OccursWithin(f.headings[0] + ['\n'] + "b", OpenMarker(f), "c", OpenMarker(f));
    OccursWithin(before, parts[0], after, OpenMarker(f));
    assert MarkerHost(f, Summary(bodies, None)) == RenderSections(f.headings, bodies);
  }

  // The blanks are trimmed away, which completes the opening marker: accepted, and
  // rejected when printed.
  lemma BlankLineDrifts()
    ensures var f := COMPACTION_FORMAT;
      var seen := WithFirst(f, "b" + OpenMarker(f) + "c");
      && Drifts(f, WithFirst(f, BlanksThen(SPLIT_TURN_PREFIX_OPEN)), seen)
      && Occurs(RenderSections(f.headings, seen), OpenMarker(f))
  {
    var f := COMPACTION_FORMAT;
    CompactionFormatUsable();
    assert f.openLine[0] == '[' && f.openLine[|f.openLine| - 1] == ']';
    BlanksReadAs(f);
    MarkerInside(f, WithFirst(f, "b" + OpenMarker(f) + "c"));
    FirstDrifts(f, BlanksThen(f.openLine), "b" + OpenMarker(f) + "c");
  }
}
