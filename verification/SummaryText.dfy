// The text form of a compaction summary: seven fixed sections, and for a split
// turn a marked prefix after them.
module SummaryText {
  import opened Prelude
  import opened Text
  import opened SectionLayout
  import opened SectionText

  const ELLIPSIS := '…'

  // The headings and the two marker lines.
  datatype Format = Format(headings: seq<string>, openLine: string, closeLine: string)

  // All that the proofs need to know about them.
  ghost predicate FormatOk(m: Format) {
    && m.headings != [] && HeadingsOk(m.headings)
    && m.openLine != "" && StartsSolid(m.openLine) && '\n' !in m.openLine && ELLIPSIS !in m.openLine
    && m.closeLine != "" && EndsSolid(m.closeLine)
  }

  function OpenMarker(f: Format): string {
    "\n\n" + f.openLine + "\n"
  }

  function CloseMarker(f: Format): string {
    "\n" + f.closeLine
  }

  // One body per heading, in the order of the headings.
  datatype Summary = Summary(bodies: seq<string>, splitTurnPrefix: Option<string>)

  // --- parsing and rendering ------------------------------------------------

  predicate EndsWith(s: string, t: string) {
    |t| <= |s| && s[|s| - |t|..] == t
  }

  datatype Halves = Halves(main: string, prefix: Option<string>)

  function SplitTurn(f: Format, summary: string, isSplitTurn: bool): Result<Halves, SummaryError> {
    var openIndex := IndexFrom(summary, OpenMarker(f), 0);
    if !isSplitTurn then
      if openIndex < 0 then Ok(Halves(summary, None)) else Err(UnexpectedSplitTurnPrefix)
    else if openIndex < 0 || !EndsWith(summary, CloseMarker(f)) then Err(MissingSplitTurnPrefix)
    else
      var prefix := Trim(Clamp(summary, openIndex + |OpenMarker(f)|, |summary| - |CloseMarker(f)|));
      if prefix == "" then Err(EmptySplitTurnPrefix)
      else Ok(Halves(Trim(Clamp(summary, 0, openIndex)), Some(prefix)))
  }

  function Parse(f: Format, summary: string, isSplitTurn: bool): Result<Summary, SummaryError> {
    var split := SplitTurn(f, summary, isSplitTurn);
    if split.Err? then Err(split.error)
    else
      var sections := ParseSections(split.value.main, f.headings);
      if sections.Err? then Err(sections.error) else Ok(Summary(sections.value, split.value.prefix))
  }

  function CombineSplitTurn(f: Format, mainSummary: string, prefixSummary: string): string {
    Join([Trim(mainSummary), "", f.openLine, Trim(prefixSummary), f.closeLine], '\n')
  }

  function Main(f: Format, summary: Summary): string
  {
    RenderSections(f.headings, summary.bodies)
  }

  function Render(f: Format, summary: Summary): string
  {
    if summary.splitTurnPrefix.None? then Main(f, summary)
    else CombineSplitTurn(f, Main(f, summary), summary.splitTurnPrefix.value)
  }

  // --- the markers ----------------------------------------------------------

  // A text that overlaps itself only in its last character.
  predicate AlmostUnbordered(t: string) {
    |t| > 1 && forall j :: 0 < j < |t| - 1 ==> t[j..] != t[..|t| - j]
  }

  lemma OpenMarkerShape(f: Format)
    requires FormatOk(f)
    ensures AlmostUnbordered(OpenMarker(f)) && |OpenMarker(f)| > 2
    ensures OpenMarker(f)[0] == OpenMarker(f)[|OpenMarker(f)| - 1] == '\n' && !IsSpace(OpenMarker(f)[2])
    ensures ELLIPSIS !in OpenMarker(f)
  {
    var t := OpenMarker(f);
    assert forall i :: 0 <= i < |f.openLine| ==> t[2 + i] == f.openLine[i];
    forall j | 0 < j < |t| - 1 ensures t[j..] != t[..|t| - j] {
      if j == 1 {
        assert t[j..][1] == t[2] && t[..|t| - j][1] == '\n';
      } else {
        assert t[j..][0] == f.openLine[j - 2] && t[..|t| - j][0] == '\n';
      }
    }
  }

  // Where a text that opens with main and goes on with t can contain t early.
  lemma EarlyOccurrence(main: string, t: string, rest: string, i: nat)
    requires AlmostUnbordered(t) && i < |main| && IsAt(main + t + rest, t, i)
    ensures i + |t| <= |main| + 1 && IsAt(main + [t[0]], t, i)
  {
    var text := main + t + rest;
    var j := |main| - i;
    if j < |t| {
      assert text[|main|..i + |t|] == t[..|t| - j];
      assert text[i..i + |t|][j..] == text[|main|..i + |t|];
    }
    assert (main + [t[0]])[i..i + |t|] == text[i..i + |t|];
  }

  lemma LateOccurrence(main: string, t: string, rest: string, i: nat)
    requires |t| > 0 && IsAt(main + [t[0]], t, i)
    ensures IsAt(main + t + rest, t, i)
  {
  }

  ghost predicate ShapedPrefix(prefix: Option<string>) {
    prefix.Some? ==> prefix.value != "" && StartsSolid(prefix.value) && EndsSolid(prefix.value)
  }

  // What the parser returns: one canonical body per heading, a trimmed prefix.
  ghost predicate WellShaped(f: Format, summary: Summary) {
    |summary.bodies| == |f.headings| && AllCanonical(summary.bodies) && ShapedPrefix(summary.splitTurnPrefix)
  }

  // Where a stray opening marker would be found.
  function MarkerHost(f: Format, summary: Summary): string
  {
    Main(f, summary) + (if summary.splitTurnPrefix.Some? then "\n" else "")
  }

  // The two things that may go wrong when a summary is printed and parsed again.
  ghost predicate Stable(f: Format, summary: Summary)
  {
    NoneHeaded(summary.bodies) && !Occurs(MarkerHost(f, summary), OpenMarker(f))
  }

  function InnerText(f: Format, text: string): string
    requires SplitTurn(f, text, true).Ok?
  {
    Clamp(text, IndexFrom(text, OpenMarker(f), 0) + |OpenMarker(f)|, |text| - |CloseMarker(f)|)
  }

  lemma SplitPrefixIs(f: Format, text: string)
    requires SplitTurn(f, text, true).Ok?
    ensures SplitTurn(f, text, true).value.prefix == Some(Trim(InnerText(f, text))) && Trim(InnerText(f, text)) != ""
  {
  }

  lemma SplitPrefixShaped(f: Format, text: string, isSplitTurn: bool)
    requires SplitTurn(f, text, isSplitTurn).Ok?
    ensures var halves := SplitTurn(f, text, isSplitTurn).value;
      ShapedPrefix(halves.prefix) && (halves.prefix.Some? <==> isSplitTurn)
  {
    if isSplitTurn {
      SplitPrefixIs(f, text);
      TrimIsSolid(InnerText(f, text));
    }
  }

  lemma ParsedParts(f: Format, text: string, isSplitTurn: bool) returns (halves: Halves)
    requires Parse(f, text, isSplitTurn).Ok?
    ensures SplitTurn(f, text, isSplitTurn) == Ok(halves)
    ensures ParseSections(halves.main, f.headings) == Ok(Parse(f, text, isSplitTurn).value.bodies)
    ensures Parse(f, text, isSplitTurn).value.splitTurnPrefix == halves.prefix
  {
    halves := SplitTurn(f, text, isSplitTurn).value;
  }

  lemma ParsedWellShaped(f: Format, text: string, isSplitTurn: bool)
    requires FormatOk(f)
    requires Parse(f, text, isSplitTurn).Ok?
    ensures var parsed := Parse(f, text, isSplitTurn).value;
      WellShaped(f, parsed) && (parsed.splitTurnPrefix.Some? <==> isSplitTurn)
  {
    var halves := ParsedParts(f, text, isSplitTurn);
    SplitPrefixShaped(f, text, isSplitTurn);
    ParsedCanonical(halves.main, f.headings);
  }

  lemma SectionsSolid(headings: seq<string>, bodies: seq<string>)
    requires |headings| == |bodies| > 0 && HeadingsOk(headings) && AllCanonical(bodies)
    ensures var text := RenderSections(headings, bodies); text != "" && StartsSolid(text) && EndsSolid(text)
  {
    var parts := Titled(headings, bodies);
    var n := |parts| - 1;
    var first := headings[0];
    assert HEADING_MARK <= first && first[0] == HEADING_MARK[0];
    assert parts[0] == first + (['\n'] + bodies[0]);
    if n > 0 {
      JoinConcat(parts[..n], parts[n..], '\n');
      assert parts == parts[..n] + parts[n..];
      assert parts[n..] == [parts[n]];
    }
  }

  lemma CombineIs(f: Format, main: string, prefix: string)
    requires StartsSolid(main) && EndsSolid(main) && StartsSolid(prefix) && EndsSolid(prefix)
    ensures CombineSplitTurn(f, main, prefix) == main + OpenMarker(f) + prefix + CloseMarker(f)
  {
    TrimSolid(main);
    TrimSolid(prefix);
    var open, close := f.openLine, f.closeLine;
    JoinFive(main, open, prefix, close);
    assert OpenMarker(f) == "\n" + "\n" + open + "\n";
  }

  lemma JoinFive(main: string, open: string, prefix: string, close: string)
    ensures Join([main, "", open, prefix, close], '\n') == main + ("\n" + "\n" + open + "\n") + prefix + ("\n" + close)
  {
    var parts := [main, "", open, prefix, close];
    JoinConcat([main, ""], [open, prefix, close], '\n');
    assert parts == [main, ""] + [open, prefix, close];
    JoinConcat([main], [""], '\n');
    assert [main] + [""] == [main, ""];
    JoinConcat([open, prefix], [close], '\n');
    assert [open, prefix] + [close] == [open, prefix, close];
    JoinConcat([open], [prefix], '\n');
    assert [open] + [prefix] == [open, prefix];
  }

  // Cutting a split-turn text apart again.
  lemma SplitTurnAgain(f: Format, main: string, prefix: string)
    requires FormatOk(f)
    requires StartsSolid(main) && EndsSolid(main) && prefix != "" && StartsSolid(prefix) && EndsSolid(prefix)
    requires !Occurs(main + "\n", OpenMarker(f))
    ensures SplitTurn(f, main + OpenMarker(f) + prefix + CloseMarker(f), true) == Ok(Halves(main, Some(prefix)))
  {
    OpenMarkerShape(f);
    MarkerIndex(main, OpenMarker(f), prefix + CloseMarker(f));
    SliceParts(main, OpenMarker(f), prefix, CloseMarker(f));
    TrimSolid(main);
    TrimSolid(prefix);
  }

  lemma MarkerIndex(main: string, t: string, rest: string)
    requires AlmostUnbordered(t) && !Occurs(main + [t[0]], t)
    ensures IndexFrom(main + t + rest, t, 0) == |main|
  {
    var text := main + t + rest;
    forall j: nat | 0 <= j < |main| ensures !IsAt(text, t, j) {
      if IsAt(text, t, j) { EarlyOccurrence(main, t, rest, j); }
    }
    assert IsAt(text, t, |main|);
    IndexIs(text, t, 0, |main|);
  }

  lemma SliceParts(main: string, open: string, prefix: string, close: string)
    ensures var text := main + open + prefix + close;
      && text == main + open + (prefix + close)
      && Clamp(text, 0, |main|) == main
      && Clamp(text, |main| + |open|, |text| - |close|) == prefix
      && EndsWith(text, close)
  {
  }

  // An earlier marker makes the prefix longer than it was.
  lemma SplitTurnSwallows(f: Format, main: string, prefix: string)
    requires FormatOk(f)
    requires prefix != "" && EndsSolid(prefix)
    requires Occurs(main + "\n", OpenMarker(f))
    ensures var r := SplitTurn(f, main + OpenMarker(f) + prefix + CloseMarker(f), true);
      r.Ok? ==> r.value.prefix != Some(prefix)
  {
    OpenMarkerShape(f);
    SliceParts(main, OpenMarker(f), prefix, CloseMarker(f));
    assert main + [OpenMarker(f)[0]] == main + "\n";
    EarlyIndex(main, OpenMarker(f), prefix + CloseMarker(f));
    var first := IndexFrom(main + OpenMarker(f) + prefix + CloseMarker(f), OpenMarker(f), 0);
    SwallowedSlice(main, OpenMarker(f), prefix, CloseMarker(f), first + |OpenMarker(f)|);
  }

  // A marker that is complete one character after main is found before the real one.
  lemma EarlyIndex(main: string, t: string, rest: string)
    requires |t| > 0 && Occurs(main + [t[0]], t)
    ensures 0 <= IndexFrom(main + t + rest, t, 0) && IndexFrom(main + t + rest, t, 0) + |t| <= |main| + 1
  {
    var i: nat :| i <= |main + [t[0]]| && IsAt(main + [t[0]], t, i);
    LateOccurrence(main, t, rest, i);
    IndexFromFirst(main + t + rest, t, 0);
  }

  lemma SwallowedSlice(main: string, open: string, prefix: string, close: string, from: nat)
    requires |open| > 2 && !IsSpace(open[2]) && prefix != "" && EndsSolid(prefix) && from <= |main| + 2
    ensures var text := main + open + prefix + close;
      |Trim(Clamp(text, from, |text| - |close|))| > |prefix|
  {
    var whole := main + open + prefix;
    var front, after := main + open[..2], open[3..] + prefix;
    assert open == open[..2] + [open[2]] + open[3..];
    assert whole == front + [open[2]] + after;
    assert whole[from..] == front[from..] + [open[2]] + after;
    assert Clamp(whole + close, from, |whole|) == whole[from..];
    SolidLine(whole[from..]);
    TrimStartStops(front[from..], open[2], after);
  }

  // Printing a parsed summary and parsing the result gives the same summary back
  // exactly when no body starts like a heading and no opening marker has formed.
  lemma Reparse(f: Format, summary: Summary)
    requires FormatOk(f)
    requires WellShaped(f, summary)
    ensures Parse(f, Render(f, summary), summary.splitTurnPrefix.Some?) == Ok(summary) <==> Stable(f, summary)
  {
    var main := Main(f, summary);
    RenderParse(f.headings, summary.bodies);
    SectionsSolid(f.headings, summary.bodies);
    match summary.splitTurnPrefix {
      case None =>
        assert MarkerHost(f, summary) == main;
        IndexFromFirst(main, OpenMarker(f), 0);
      case Some(prefix) =>
        CombineIs(f, main, prefix);
        if Occurs(main + "\n", OpenMarker(f)) {
          SplitTurnSwallows(f, main, prefix);
        } else {
          SplitTurnAgain(f, main, prefix);
        }
    }
  }

  // Normalising twice is normalising once: on a parsed summary that prints back to
  // itself, printer and parser undo each other both ways.
  lemma NormalForm(f: Format, text: string, isSplitTurn: bool)
    requires FormatOk(f) && Parse(f, text, isSplitTurn).Ok? && Stable(f, Parse(f, text, isSplitTurn).value)
    ensures var printed := Render(f, Parse(f, text, isSplitTurn).value);
      && Parse(f, printed, isSplitTurn) == Parse(f, text, isSplitTurn)
      && Render(f, Parse(f, printed, isSplitTurn).value) == printed
  {
    ParsedWellShaped(f, text, isSplitTurn);
    Reparse(f, Parse(f, text, isSplitTurn).value);
  }

  lemma RenderTrimmed(f: Format, summary: Summary)
    requires FormatOk(f)
    requires WellShaped(f, summary)
    ensures Render(f, summary) != "" && Trim(Render(f, summary)) == Render(f, summary)
  {
    SectionsSolid(f.headings, summary.bodies);
    if summary.splitTurnPrefix.Some? {
      CombineIs(f, Main(f, summary), summary.splitTurnPrefix.value);
      assert EndsSolid(CloseMarker(f)) && CloseMarker(f) != "";
    }
    TrimSolid(Render(f, summary));
  }
}
