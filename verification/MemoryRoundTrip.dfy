// Parsing a rendered memory file gives the same entries, stable ones first, and
// rendering those changes nothing.
module MemoryRoundTrip {
  import opened Prelude
  import opened Text
  import opened MemoryMarkdown

  // --- entries that survive the text form -----------------------------------

  predicate KeyOk(key: string) {
    key != "" && IsLetter(key[0]) && forall i :: 0 <= i < |key| ==> IsKeyChar(key[i])
  }

  ghost predicate FieldOk(f: Field) {
    && KeyOk(f.key)
    && f.value != "" && StartsSolid(f.value) && EndsSolid(f.value) && !HasBreak(f.value)
    && !Occurs(RenderField(f), META_END)
  }

  function TableOf(header: seq<Field>): map<string, string> {
    if header == [] then map[]
    else
      var last := header[|header| - 1];
      TableOf(header[..|header| - 1])[last.key := last.value]
  }

  // Header values on one line without the closing marker, content trimmed.
  ghost predicate Framed(e: TextEntry) {
    && (forall i :: 0 <= i < |e.header| ==> FieldOk(e.header[i]))
    && Complete(TableOf(e.header))
    && e.content != "" && StartsSolid(e.content) && EndsSolid(e.content)
  }

  // And no end marker in the content.
  ghost predicate EntryOk(e: TextEntry) {
    Framed(e) && !Occurs(e.content, ENTRY_END)
  }

  function ParsedOf(e: TextEntry): ParsedEntry {
    ParsedEntry(TableOf(e.header), e.content)
  }

  function ParsedAll(entries: seq<TextEntry>): (r: seq<ParsedEntry>)
    ensures |r| == |entries| && forall i :: 0 <= i < |entries| ==> r[i] == ParsedOf(entries[i])
  {
    seq(|entries|, i requires 0 <= i < |entries| => ParsedOf(entries[i]))
  }

  // --- finding markers ------------------------------------------------------

  // The first character of t appears nowhere else in it.
  predicate UniqueStart(t: string) {
    t != "" && forall i :: 1 <= i < |t| ==> t[i] != t[0]
  }

  lemma MarkersShape()
    ensures UniqueStart(ENTRY_START) && UniqueStart(ENTRY_END)
    ensures '\n' !in ENTRY_START && '\n' !in ENTRY_END && '\n' !in META_END
    ensures |ENTRY_START| > 0 && |ENTRY_END| > 0 && ENTRY_START[0] == ENTRY_END[0] == '<'
  {
  }

  lemma InsideGap(gap: string, t: string, rest: string, j: nat)
    requires UniqueStart(t) && j < |gap| && IsAt(gap + t + rest, t, j)
    ensures IsAt(gap, t, j)
  {
    var s := gap + t + rest;
    assert s[|gap|] == t[0];
    assert forall k :: j <= k < j + |t| ==> s[k] == t[k - j];
    assert gap[j..j + |t|] == s[j..j + |t|];
  }

  lemma FirstAt(gap: string, t: string, rest: string)
    requires UniqueStart(t) && !Occurs(gap, t)
    ensures IndexFrom(gap + t + rest, t, 0) == |gap|
  {
    var s := gap + t + rest;
    forall j: nat | 0 <= j < |gap| ensures !IsAt(s, t, j) {
      if IsAt(s, t, j) { InsideGap(gap, t, rest, j); }
    }
    assert s[|gap|..|gap| + |t|] == t;
    assert IsAt(s, t, |gap|);
    IndexIs(s, t, 0, |gap|);
  }

  lemma BeforeBreak(gap: string, c: char, t: string, rest: string, j: nat)
    requires c !in t && t != "" && j <= |gap| && IsAt(gap + [c] + t + rest, t, j)
    ensures IsAt(gap + [c], t, j)
  {
    var s := gap + [c] + t + rest;
    assert s[|gap|] == c;
    assert forall k :: j <= k < j + |t| ==> s[k] == t[k - j];
    assert (gap + [c])[j..j + |t|] == s[j..j + |t|];
  }

  // The same when the text before ends in a character the marker does not have.
  lemma FirstAfter(gap: string, c: char, t: string, rest: string)
    requires c !in t && t != "" && !Occurs(gap + [c], t)
    ensures IndexFrom(gap + [c] + t + rest, t, 0) == |gap| + 1
  {
    var before := gap + [c];
    var s := before + t + rest;
    forall j: nat | 0 <= j < |before| ensures !IsAt(s, t, j) {
      if IsAt(s, t, j) { BeforeBreak(gap, c, t, rest, j); }
    }
    assert s[|before|..|before| + |t|] == t;
    assert IsAt(s, t, |before|);
    IndexIs(s, t, 0, |before|);
  }

  lemma NoMarkerIn(s: string, t: string)
    requires t != "" && t[0] !in s
    ensures !Occurs(s, t)
  {
  }

  // --- headers --------------------------------------------------------------

  lemma {:induction false} KeyLengthIs(key: string, rest: string)
    requires forall i :: 0 <= i < |key| ==> IsKeyChar(key[i])
    requires rest != "" && !IsKeyChar(rest[0])
    ensures KeyLength(key + rest) == |key|
  {
    var n := KeyLength(key + rest);
    assert forall i :: 0 <= i < |key| ==> (key + rest)[i] == key[i];
    assert (key + rest)[|key|] == rest[0];
  }

  lemma LetterSolid(c: char)
    requires IsLetter(c)
    ensures !IsSpace(c)
  {
  }

  lemma FieldMatches(f: Field)
    requires FieldOk(f)
    ensures MatchField(Trim(RenderField(f))) == Some(f)
    ensures '\n' !in RenderField(f)
  {
    OneLine(f);
    var line := RenderField(f);
    var rest := ": " + f.value;
    assert line == f.key + rest;
    LetterSolid(f.key[0]);
    assert line[0] == f.key[0] && line[|line| - 1] == f.value[|f.value| - 1];
    TrimSolid(line);
    KeyLengthIs(f.key, rest);
    assert line[|f.key| + 1..] == " " + f.value;
    assert (" " + f.value)[1..] == f.value;
    assert TrimStart(" " + f.value) == TrimStart(f.value) == f.value;
    assert line[..|f.key|] == f.key;
  }

  lemma OneLine(f: Field)
    requires FieldOk(f)
    ensures '\n' !in RenderField(f)
  {
    var line := RenderField(f);
    forall i | 0 <= i < |line| ensures line[i] != '\n' {
      if i < |f.key| {
        assert line[i] == f.key[i];
      } else if i >= |f.key| + 2 {
        assert line[i] == f.value[i - |f.key| - 2];
      }
    }
  }

  // The text between the start marker and the end of the metadata.
  function HeaderText(header: seq<Field>): string {
    if header == [] then "\n"
    else HeaderText(header[..|header| - 1]) + RenderField(header[|header| - 1]) + "\n"
  }

  // One more line on a text that ends in a line break.
  lemma SplitSnoc(before: string, lines: seq<string>, line: string)
    requires SplitAt(before + "\n", '\n') == lines + [""] && '\n' !in line
    ensures SplitAt(before + "\n" + line + "\n", '\n') == lines + [line] + [""]
  {
    assert before + "\n" == before + ['\n'] + "";
    SplitAcross(before, "", '\n');
    SnocCancel(SplitAt(before, '\n'), lines, "");
    assert before + "\n" + line + "\n" == before + ['\n'] + (line + ['\n'] + "");
    SplitAcross(before, line + ['\n'] + "", '\n');
    SplitOnce(line, "", '\n');
  }

  // No field spreads over two lines.
  ghost predicate OneLined(header: seq<Field>) {
    forall i :: 0 <= i < |header| ==> '\n' !in RenderField(header[i])
  }

  // No field holds the marker that closes the header.
  ghost predicate Quiet(header: seq<Field>) {
    forall i :: 0 <= i < |header| ==> !Occurs(RenderField(header[i]), META_END)
  }

  lemma {:induction false} HeaderTextSplits(header: seq<Field>)
    requires OneLined(header)
    ensures SplitAt(HeaderText(header), '\n') == [""] + HeaderLines(header) + [""]
  {
    if header == [] {
      SplitOnce("", "", '\n');
      assert "" + ['\n'] + "" == "\n";
      assert [""] + HeaderLines(header) + [""] == ["", ""];
    } else {
      var n := |header| - 1;
      HeaderTextSplits(header[..n]);
      HeaderEnds(header[..n]);
      var text := HeaderText(header[..n]);
      var before := text[..|text| - 1];
      assert text == before + "\n";
      SplitSnoc(before, [""] + HeaderLines(header[..n]), RenderField(header[n]));
      assert [""] + HeaderLines(header) == [""] + HeaderLines(header[..n]) + [RenderField(header[n])];
    }
  }

  lemma SnocCancel<T>(a: seq<T>, b: seq<T>, x: T)
    requires a + [x] == b + [x]
    ensures a == b
  {
    assert a == (a + [x])[..|a + [x]| - 1];
    assert b == (b + [x])[..|b + [x]| - 1];
  }

  lemma HeaderEnds(header: seq<Field>)
    ensures HeaderText(header) != "" && HeaderText(header)[|HeaderText(header)| - 1] == '\n'
  {
  }

  lemma FieldsSnoc(lines: seq<string>, line: string)
    ensures FieldsOf(lines + [line]) ==
      var field := MatchField(Trim(line));
      if field.Some? then FieldsOf(lines)[field.value.key := field.value.value] else FieldsOf(lines)
  {
  }

  lemma NoField()
    ensures MatchField(Trim("")) == None
  {
  }

  lemma LinesSnoc(header: seq<Field>, f: Field)
    ensures [""] + HeaderLines(header + [f]) == ([""] + HeaderLines(header)) + [RenderField(f)]
  {
  }

  lemma TableSnoc(header: seq<Field>, f: Field)
    ensures TableOf(header + [f]) == TableOf(header)[f.key := f.value]
  {
  }

  // One more header line is one more entry of the table.
  lemma FieldsStep(header: seq<Field>, f: Field)
    requires FieldOk(f) && FieldsOf([""] + HeaderLines(header)) == TableOf(header)
    ensures FieldsOf([""] + HeaderLines(header + [f])) == TableOf(header + [f])
  {
    LinesSnoc(header, f);
    TableSnoc(header, f);
    FieldMatches(f);
    FieldsSnoc([""] + HeaderLines(header), RenderField(f));
  }

  lemma NoFields()
    ensures FieldsOf([""] + HeaderLines([])) == map[]
  {
  }

  lemma {:induction false} FieldsOfLines(header: seq<Field>)
    requires forall i :: 0 <= i < |header| ==> FieldOk(header[i])
    ensures FieldsOf([""] + HeaderLines(header)) == TableOf(header)
  {
    if header == [] {
      NoFields();
    } else {
      var front, last := header[..|header| - 1], header[|header| - 1];
      FieldsOfLines(front);
      FieldsStep(front, last);
      assert header == front + [last];
    }
  }

  lemma HeaderParses(header: seq<Field>)
    requires forall i :: 0 <= i < |header| ==> FieldOk(header[i])
    ensures FieldsOf(SplitAt(HeaderText(header), '\n')) == TableOf(header)
  {
    forall i | 0 <= i < |header| ensures '\n' !in RenderField(header[i]) { OneLine(header[i]); }
    HeaderTextSplits(header);
    FieldsOfLines(header);
    FieldsSnoc([""] + HeaderLines(header), "");
    NoField();
  }

  lemma LineAddsNoEnd(before: string, line: string)
    requires !Occurs(before + ['\n'], META_END) && !Occurs(line, META_END)
    ensures !Occurs(before + ['\n'] + (line + ['\n'] + ""), META_END)
  {
    NoMarkerIn("", META_END);
    assert "" + before + ['\n'] == before + ['\n'];
    if Occurs(before + ['\n'] + (line + ['\n'] + ""), META_END) {
      OccursAround(before, '\n', line + ['\n'] + "", META_END);
      if Occurs(before, META_END) {
        OccursWithin("", before, ['\n'], META_END);
      } else {
        OccursAround(line, '\n', "", META_END);
      }
    }
  }

  lemma {:induction false} HeaderHasNoEnd(header: seq<Field>)
    requires Quiet(header)
    ensures !Occurs(HeaderText(header), META_END)
  {
    if header == [] {
      NoMarkerIn("\n", META_END);
    } else {
      var n := |header| - 1;
      var text, line := HeaderText(header[..n]), RenderField(header[n]);
      HeaderHasNoEnd(header[..n]);
      HeaderEnds(header[..n]);
      var before := text[..|text| - 1];
      assert text == before + ['\n'];
      LineAddsNoEnd(before, line);
      assert text + line + "\n" == before + ['\n'] + (line + ['\n'] + "");
    }
  }

  // --- one entry ------------------------------------------------------------

  function BodyText(e: TextEntry): string {
    "\n- " + e.content + "\n"
  }

  lemma BodyHasNoEnd(e: TextEntry)
    requires !Occurs(e.content, ENTRY_END)
    ensures !Occurs(BodyText(e), ENTRY_END)
  {
    MarkersShape();
    var line := "- " + e.content;
    assert BodyText(e) == "" + ['\n'] + (line + ['\n'] + "");
    NoMarkerIn("", ENTRY_END);
    if Occurs(BodyText(e), ENTRY_END) {
      OccursAround("", '\n', line + ['\n'] + "", ENTRY_END);
      OccursAround(line, '\n', "", ENTRY_END);
      DashOccurs(e.content);
    }
  }

  lemma BodyReads(e: TextEntry)
    requires EntryOk(e)
    ensures var body := Trim(DropNewline(BodyText(e))); "- " <= body && Trim(body[2..]) == e.content
  {
    var line := "- " + e.content;
    assert DropNewline(BodyText(e)) == line + "\n";
    assert (line + "\n")[..|line|] == line;
    assert TrimEnd(line + "\n") == TrimEnd(line) == line;
    assert TrimStart(line) == line;
    assert line[2..] == e.content;
    TrimSolid(e.content);
  }

  lemma BodyParses(e: TextEntry)
    requires EntryOk(e)
    ensures !Occurs(BodyText(e), ENTRY_END)
    ensures var body := Trim(DropNewline(BodyText(e))); "- " <= body && Trim(body[2..]) == e.content
  {
    BodyHasNoEnd(e);
    BodyReads(e);
  }

  lemma DashOccurs(content: string)
    requires Occurs("- " + content, ENTRY_END)
    ensures Occurs(content, ENTRY_END)
  {
    MarkersShape();
    var line := "- " + content;
    var i: nat :| i <= |line| && IsAt(line, ENTRY_END, i);
    assert line[i] == line[i..i + |ENTRY_END|][0] == '<';
    assert i >= 2;
    assert content[i - 2..i - 2 + |ENTRY_END|] == line[i..i + |ENTRY_END|];
    assert IsAt(content, ENTRY_END, i - 2);
  }

  lemma JoinSnoc(lines: seq<string>, line: string)
    requires lines != []
    ensures Join(lines + [line], '\n') == Join(lines, '\n') + ['\n'] + line
  {
    JoinConcat(lines, [line], '\n');
  }

  lemma {:induction false} JoinHeader(header: seq<Field>)
    ensures Join([ENTRY_START] + HeaderLines(header), '\n') + "\n" == ENTRY_START + HeaderText(header)
  {
    if header == [] {
      assert [ENTRY_START] + HeaderLines(header) == [ENTRY_START];
    } else {
      var n := |header| - 1;
      var lines, line := [ENTRY_START] + HeaderLines(header[..n]), RenderField(header[n]);
      JoinHeader(header[..n]);
      assert [ENTRY_START] + HeaderLines(header) == lines + [line];
      JoinSnoc(lines, line);
      TextGrows(Join(lines, '\n'), ENTRY_START, HeaderText(header[..n]), line);
    }
  }

  lemma TextGrows(joined: string, start: string, text: string, line: string)
    requires joined + "\n" == start + text
    ensures (joined + ['\n'] + line) + "\n" == start + (text + line + "\n")
  {
  }

  lemma JoinFour(a: string, b: string, c: string)
    ensures Join([a, b, c, ""], '\n') == a + (("\n" + b + "\n") + (c + "\n"))
  {
    JoinConcat([a, b], [c, ""], '\n');
    assert [a, b] + [c, ""] == [a, b, c, ""];
    JoinConcat([a], [b], '\n');
    assert [a] + [b] == [a, b];
    JoinConcat([c], [""], '\n');
    assert [c] + [""] == [c, ""];
  }

  lemma EntryShape(e: TextEntry)
    ensures RenderEntry(e) == ENTRY_START + (HeaderText(e.header) + (META_END + (BodyText(e) + (ENTRY_END + "\n"))))
  {
    var head := [ENTRY_START] + HeaderLines(e.header);
    var tail := [META_END, "- " + e.content, ENTRY_END, ""];
    JoinConcat(head, tail, '\n');
    JoinHeader(e.header);
    assert RenderEntry(e) == Join(head, '\n') + ['\n'] + Join(tail, '\n');
    JoinFour(META_END, "- " + e.content, ENTRY_END);
    assert RenderEntry(e) == (Join(head, '\n') + "\n") + Join(tail, '\n');
  }

  function AfterMeta(e: TextEntry, rest: string): string {
    BodyText(e) + ENTRY_END + ("\n" + rest)
  }

  function AfterStart(e: TextEntry, rest: string): string {
    HeaderText(e.header) + META_END + AfterMeta(e, rest)
  }

  // The parts of an entry, where the parser cuts them.
  lemma CutAtMeta(e: TextEntry, rest: string)
    requires Quiet(e.header)
    ensures IndexFrom(AfterStart(e, rest), META_END, 0) == |HeaderText(e.header)|
  {
    HeaderHasNoEnd(e.header);
    HeaderEnds(e.header);
    MarkersShape();
    var before := HeaderText(e.header)[..|HeaderText(e.header)| - 1];
    assert HeaderText(e.header) == before + ['\n'];
    FirstAfter(before, '\n', META_END, AfterMeta(e, rest));
  }

  lemma CutAtEnd(e: TextEntry, rest: string)
    requires EntryOk(e)
    ensures IndexFrom(AfterMeta(e, rest), ENTRY_END, 0) == |BodyText(e)|
  {
    BodyParses(e);
    MarkersShape();
    FirstAt(BodyText(e), ENTRY_END, "\n" + rest);
  }

  lemma EntryRegrouped(e: TextEntry, rest: string)
    ensures RenderEntry(e) + rest == ENTRY_START + AfterStart(e, rest)
  {
    EntryShape(e);
    RegroupEntry(ENTRY_START, HeaderText(e.header), META_END, BodyText(e), ENTRY_END, rest);
  }

  lemma Regroup(a: string, b: string, c: string, d: string)
    requires b == c + d
    ensures a + b == a + c + d
  {
  }

  lemma CutAtStart(gap: string, after: string)
    requires !Occurs(gap, ENTRY_START)
    ensures IndexFrom(gap + ENTRY_START + after, ENTRY_START, 0) == |gap|
  {
    MarkersShape();
    FirstAt(gap, ENTRY_START, after);
  }

  lemma RegroupEntry(a: string, b: string, c: string, d: string, f: string, rest: string)
    ensures (a + (b + (c + (d + (f + "\n"))))) + rest == a + (b + c + (d + f + ("\n" + rest)))
  {
  }

  // One turn of the parser, on a text cut like this.
  lemma FirstCut(text: string, start: nat, afterStart: string, header: string, afterMeta: string, close: nat)
    requires IndexFrom(text, ENTRY_START, 0) == start && start + |ENTRY_START| <= |text|
    requires text[start + |ENTRY_START|..] == afterStart
    requires IndexFrom(afterStart, META_END, 0) == |header| && |header| + |META_END| <= |afterStart|
    requires afterStart[..|header|] == header && afterStart[|header| + |META_END|..] == afterMeta
    requires IndexFrom(afterMeta, ENTRY_END, 0) == close && close + |ENTRY_END| <= |afterMeta|
    ensures var parsed := ParseEntry(header, afterMeta[..close]);
      FirstEntry(text) == if parsed.Err? then Err(parsed.error)
                          else Ok(Some((parsed.value, DropNewline(afterMeta[close + |ENTRY_END|..]))))
  {
  }

  lemma DropFront(a: string, b: string, c: string)
    ensures (a + b + c)[|a| + |b|..] == c && (a + b + c)[..|a|] == a
  {
  }

  lemma FirstOf(gap: string, header: string, afterMeta: string, close: nat)
    requires IndexFrom(gap + ENTRY_START + (header + META_END + afterMeta), ENTRY_START, 0) == |gap|
    requires IndexFrom(header + META_END + afterMeta, META_END, 0) == |header|
    requires IndexFrom(afterMeta, ENTRY_END, 0) == close && close + |ENTRY_END| <= |afterMeta|
    ensures var parsed := ParseEntry(header, afterMeta[..close]);
      FirstEntry(gap + ENTRY_START + (header + META_END + afterMeta))
        == if parsed.Err? then Err(parsed.error)
           else Ok(Some((parsed.value, DropNewline(afterMeta[close + |ENTRY_END|..]))))
  {
    var afterStart := header + META_END + afterMeta;
    DropFront(gap, ENTRY_START, afterStart);
    DropFront(header, META_END, afterMeta);
    FirstCut(gap + ENTRY_START + afterStart, |gap|, afterStart, header, afterMeta, close);
  }

  lemma ParseTurn(gap: string, header: string, body: string, rest: string, afterMeta: string)
    requires |body| + |ENTRY_END| <= |afterMeta|
    requires afterMeta[..|body|] == body && afterMeta[|body| + |ENTRY_END|..] == ['\n'] + rest
    requires IndexFrom(gap + ENTRY_START + (header + META_END + afterMeta), ENTRY_START, 0) == |gap|
    requires IndexFrom(header + META_END + afterMeta, META_END, 0) == |header|
    requires IndexFrom(afterMeta, ENTRY_END, 0) == |body| && ParseEntry(header, body).Ok?
    ensures FirstEntry(gap + ENTRY_START + (header + META_END + afterMeta))
         == Ok(Some((ParseEntry(header, body).value, rest)))
  {
    FirstOf(gap, header, afterMeta, |body|);
    DropBreak(rest);
  }

  lemma DropBreak(rest: string)
    ensures DropNewline(['\n'] + rest) == rest
  {
  }

  lemma EntryParses(e: TextEntry)
    requires EntryOk(e)
    ensures ParseEntry(HeaderText(e.header), BodyText(e)) == Ok(ParsedOf(e))
  {
    HeaderParses(e.header);
    BodyParses(e);
  }

  lemma ParseOne(gap: string, e: TextEntry, rest: string)
    requires EntryOk(e) && !Occurs(gap, ENTRY_START)
    ensures var r := ParseEntries(rest);
      ParseEntries(gap + (RenderEntry(e) + rest)) == if r.Err? then r else Ok([ParsedOf(e)] + r.value)
  {
    EntryRegrouped(e, rest);
    Regroup(gap, RenderEntry(e) + rest, ENTRY_START, AfterStart(e, rest));
    CutAtStart(gap, AfterStart(e, rest));
    CutAtMeta(e, rest);
    CutAtEnd(e, rest);
    EntryParses(e);
    DropFront(BodyText(e), ENTRY_END, "\n" + rest);
    ParseTurn(gap, HeaderText(e.header), BodyText(e), rest, AfterMeta(e, rest));
  }

  // --- many entries ---------------------------------------------------------

  ghost predicate AllOk(entries: seq<TextEntry>) {
    forall i :: 0 <= i < |entries| ==> EntryOk(entries[i])
  }

  lemma {:induction false} RenderAllCons(entries: seq<TextEntry>)
    requires entries != []
    ensures RenderAll(entries) == RenderEntry(entries[0]) + RenderAll(entries[1..])
  {
    if |entries| == 1 {
      assert entries[..0] == [] && entries[1..] == [];
    } else {
      var n := |entries| - 1;
      RenderAllCons(entries[..n]);
      assert entries[..n][1..] == entries[1..][..n - 1];
      assert entries[1..][|entries[1..]| - 1] == entries[n];
      assert RenderEntry(entries[0]) + RenderAll(entries[1..][..n - 1]) + RenderEntry(entries[n])
          == RenderEntry(entries[0]) + (RenderAll(entries[1..][..n - 1]) + RenderEntry(entries[n]));
    }
  }

  function Prepend(front: seq<ParsedEntry>,
                   r: Result<seq<ParsedEntry>, FormatError>): Result<seq<ParsedEntry>, FormatError> {
    if r.Err? then r else Ok(front + r.value)
  }

  lemma PrependTwice(a: seq<ParsedEntry>, b: seq<ParsedEntry>, r: Result<seq<ParsedEntry>, FormatError>)
    ensures Prepend(a, Prepend(b, r)) == Prepend(a + b, r)
  {
    if r.Ok? { assert a + (b + r.value) == (a + b) + r.value; }
  }

  lemma AllCons(entries: seq<TextEntry>, rest: string)
    requires entries != []
    ensures RenderAll(entries) + rest == RenderEntry(entries[0]) + (RenderAll(entries[1..]) + rest)
  {
    RenderAllCons(entries);
  }

  lemma ParseFirst(gap: string, entries: seq<TextEntry>, rest: string, later: Result<seq<ParsedEntry>, FormatError>)
    requires AllOk(entries) && entries != [] && !Occurs(gap, ENTRY_START)
    requires ParseEntries(RenderAll(entries[1..]) + rest) == later
    ensures ParseEntries(gap + (RenderAll(entries) + rest)) == Prepend([ParsedOf(entries[0])], later)
  {
    AllCons(entries, rest);
    ParseOne(gap, entries[0], RenderAll(entries[1..]) + rest);
  }

  lemma ParsedCons(entries: seq<TextEntry>)
    requires entries != []
    ensures ParsedAll(entries) == [ParsedOf(entries[0])] + ParsedAll(entries[1..])
  {
  }

  lemma ParseMore(gap: string, entries: seq<TextEntry>, rest: string, r: Result<seq<ParsedEntry>, FormatError>)
    requires AllOk(entries) && entries != [] && !Occurs(gap, ENTRY_START)
    requires ParseEntries(RenderAll(entries[1..]) + rest) == Prepend(ParsedAll(entries[1..]), r)
    ensures ParseEntries(gap + (RenderAll(entries) + rest)) == Prepend(ParsedAll(entries), r)
  {
    PrependTwice([ParsedOf(entries[0])], ParsedAll(entries[1..]), r);
    ParsedCons(entries);
    ParseFirst(gap, entries, rest, Prepend(ParsedAll(entries[1..]), r));
  }

  lemma PrependNothing(r: Result<seq<ParsedEntry>, FormatError>)
    ensures Prepend([], r) == r
  {
    if r.Ok? { assert [] + r.value == r.value; }
  }

  lemma EmptyFront(s: string)
    ensures "" + s == s
  {
  }

  lemma {:induction false} ParseMany(gap: string, entries: seq<TextEntry>, rest: string,
                                     r: Result<seq<ParsedEntry>, FormatError>)
    requires AllOk(entries) && entries != [] && !Occurs(gap, ENTRY_START) && ParseEntries(rest) == r
    ensures ParseEntries(gap + (RenderAll(entries) + rest)) == Prepend(ParsedAll(entries), r)
    decreases |entries|
  {
    if entries[1..] == [] {
      EmptyFront(rest);
      PrependNothing(r);
    } else {
      NoMarkerIn("", ENTRY_START);
      ParseMany("", entries[1..], rest, r);
      EmptyFront(RenderAll(entries[1..]) + rest);
    }
    ParseMore(gap, entries, rest, r);
  }

  lemma ParseNone(text: string)
    requires !Occurs(text, ENTRY_START)
    ensures ParseEntries(text) == Ok([])
  {
    IndexFromFirst(text, ENTRY_START, 0);
  }

  // --- the file -------------------------------------------------------------

  // Rendered entries end in the end marker and a line break.
  lemma RenderedEnds(entries: seq<TextEntry>)
    requires entries != []
    ensures var text := RenderAll(entries);
      TrimEnd(text) != "" && text == TrimEnd(text) + "\n" && EndsSolid(TrimEnd(text))
  {
    var e := entries[|entries| - 1];
    var front := RenderAll(entries[..|entries| - 1]);
    var before := ENTRY_START + HeaderText(e.header) + META_END + BodyText(e);
    EntryShape(e);
    assert RenderEntry(e) == (before + ENTRY_END) + "\n";
    EndsInMarker(front, before);
  }

  lemma EndsInMarker(front: string, before: string)
    ensures var s := front + (before + ENTRY_END);
      front + ((before + ENTRY_END) + "\n") == s + "\n" && s != "" && EndsSolid(s) && TrimEnd(s + "\n") == s
  {
    var s := front + (before + ENTRY_END);
    assert s[|s| - 1] == ENTRY_END[|ENTRY_END| - 1];
    TrimBreak(s);
  }

  lemma TrimBreak(s: string)
    requires s != "" && EndsSolid(s)
    ensures TrimEnd(s + "\n") == s
  {
  }

  function Head(frontmatter: string): string {
    frontmatter + "\n\n" + STABLE_TITLE + "\n\n"
  }

  function Tail(recent: string): string {
    if recent == "" then RECENT_TITLE + "\n" else RECENT_TITLE + "\n\n" + recent
  }

  function Middle(stable: string): string {
    if stable == "" then "" else stable + "\n"
  }

  lemma JoinTwoMore(a: string, more: seq<string>)
    requires more != []
    ensures Join([a, ""] + more, '\n') == a + "\n\n" + Join(more, '\n')
  {
  }

  lemma JoinTwo(a: string)
    ensures Join([a, ""], '\n') == a + "\n"
  {
  }

  ghost predicate Listed(text: string) {
    text != "" ==> TrimEnd(text) != "" && text == TrimEnd(text) + "\n" && EndsSolid(TrimEnd(text))
  }

  // The tail without its last line break.
  function TailBody(recent: string): string {
    if recent == "" then RECENT_TITLE else RECENT_TITLE + "\n\n" + TrimEnd(recent)
  }

  lemma TailEnds(recent: string)
    requires Listed(recent)
    ensures TailBody(recent) != "" && EndsSolid(TailBody(recent)) && Tail(recent) == TailBody(recent) + "\n"
  {
  }

  lemma Solid(a: string, b: string)
    requires b != "" && EndsSolid(b)
    ensures a + b != "" && EndsSolid(a + b)
  {
  }

  lemma Regrouped(a: string, b: string)
    ensures a + (b + "\n") == (a + b) + "\n"
  {
  }

  lemma TailJoins(recent: string)
    requires Listed(recent)
    ensures Join([RECENT_TITLE, ""] + Section(recent), '\n') == Tail(recent)
  {
    if recent == "" {
      assert [RECENT_TITLE, ""] + Section(recent) == [RECENT_TITLE, ""];
      JoinTwo(RECENT_TITLE);
    } else {
      JoinTwoMore(RECENT_TITLE, Section(recent));
      JoinTwo(TrimEnd(recent));
    }
  }

  lemma MiddleJoins(stable: string, more: seq<string>)
    requires Listed(stable) && more != []
    ensures Join(Section(stable) + more, '\n') == Middle(stable) + Join(more, '\n')
  {
    if stable == "" {
      assert Section(stable) + more == more;
    } else {
      JoinTwoMore(TrimEnd(stable), more);
      assert TrimEnd(stable) + "\n\n" == stable + "\n";
    }
  }

  lemma TrimmedFile(frontmatter: string, stable: string, recent: string)
    requires Listed(stable) && Listed(recent)
    ensures var lines := [frontmatter, "", STABLE_TITLE, ""] + Section(stable) + [RECENT_TITLE, ""] + Section(recent);
      TrimEnd(Join(lines, '\n')) + "\n" == Head(frontmatter) + (Middle(stable) + Tail(recent))
  {
    LinesJoin(frontmatter, stable, recent);
    TailEnds(recent);
    Solid(Middle(stable), TailBody(recent));
    Solid(Head(frontmatter), Middle(stable) + TailBody(recent));
    Regrouped(Middle(stable), TailBody(recent));
    Regrouped(Head(frontmatter), Middle(stable) + TailBody(recent));
    TrimBreak(Head(frontmatter) + (Middle(stable) + TailBody(recent)));
  }

  lemma ListedAll(entries: seq<TextEntry>)
    ensures Listed(RenderAll(entries))
  {
    if entries != [] { RenderedEnds(entries); }
  }

  // The rendered file, piece by piece.
  lemma FileShape(frontmatter: string, entries: seq<TextEntry>)
    ensures RenderManagedMemory(frontmatter, entries)
      == Head(frontmatter) + (Middle(RenderAll(OfTier(entries, "stable"))) + Tail(RenderAll(OfTier(entries, "recent"))))
  {
    ListedAll(OfTier(entries, "stable"));
    ListedAll(OfTier(entries, "recent"));
    TrimmedFile(frontmatter, RenderAll(OfTier(entries, "stable")), RenderAll(OfTier(entries, "recent")));
  }

  lemma LinesRegrouped(frontmatter: string, middle: seq<string>, tail: seq<string>)
    ensures [frontmatter, "", STABLE_TITLE, ""] + middle + [RECENT_TITLE, ""] + tail
         == [frontmatter, ""] + ([STABLE_TITLE, ""] + (middle + ([RECENT_TITLE, ""] + tail)))
  {
  }

  lemma HeadRegrouped(frontmatter: string, rest: string)
    ensures frontmatter + "\n\n" + (STABLE_TITLE + "\n\n" + rest) == Head(frontmatter) + rest
  {
  }

  lemma HeadJoins(frontmatter: string, rest: seq<string>)
    requires rest != []
    ensures Join([frontmatter, ""] + ([STABLE_TITLE, ""] + rest), '\n') == Head(frontmatter) + Join(rest, '\n')
  {
    JoinTwoMore(STABLE_TITLE, rest);
    JoinTwoMore(frontmatter, [STABLE_TITLE, ""] + rest);
    HeadRegrouped(frontmatter, Join(rest, '\n'));
  }

  lemma LinesJoin(frontmatter: string, stable: string, recent: string)
    requires Listed(stable) && Listed(recent)
    ensures Join([frontmatter, "", STABLE_TITLE, ""] + Section(stable) + [RECENT_TITLE, ""] + Section(recent), '\n')
         == Head(frontmatter) + (Middle(stable) + Tail(recent))
  {
    var tail := [RECENT_TITLE, ""] + Section(recent);
    LinesRegrouped(frontmatter, Section(stable), Section(recent));
    HeadJoins(frontmatter, Section(stable) + tail);
    MiddleJoins(stable, tail);
    TailJoins(recent);
  }

  // --- parsing the file -----------------------------------------------------

  lemma TitlesHaveNoMarker()
    ensures '<' !in STABLE_TITLE && '<' !in RECENT_TITLE
  {
  }

  lemma HeadHasNoMarker(frontmatter: string)
    requires !Occurs(frontmatter, ENTRY_START)
    ensures !Occurs(Head(frontmatter), ENTRY_START)
  {
    MarkersShape();
    TitlesHaveNoMarker();
    var rest := "\n" + STABLE_TITLE + "\n\n";
    NoMarkerIn(rest, ENTRY_START);
    assert Head(frontmatter) == frontmatter + ['\n'] + rest;
    if Occurs(Head(frontmatter), ENTRY_START) { OccursAround(frontmatter, '\n', rest, ENTRY_START); }
  }

  lemma GapBeforeRecent(gap: string)
    requires !Occurs(gap, ENTRY_START)
    ensures !Occurs(gap + (RECENT_TITLE + "\n\n"), ENTRY_START)
    ensures !Occurs(gap + (RECENT_TITLE + "\n"), ENTRY_START)
  {
    MarkersShape();
    TitlesHaveNoMarker();
    AppendQuiet(gap, RECENT_TITLE + "\n\n");
    AppendQuiet(gap, RECENT_TITLE + "\n");
  }

  // Text without the first character of the marker adds no occurrence after a break.
  lemma AppendQuiet(gap: string, more: string)
    requires !Occurs(gap, ENTRY_START) && '<' !in more && more != "" && more[0] == '#'
    ensures !Occurs(gap + more, ENTRY_START)
  {
    MarkersShape();
    NoMarkerIn(more[1..], ENTRY_START);
    assert gap + more == gap + ['#'] + more[1..];
    assert '#' !in ENTRY_START;
    if Occurs(gap + more, ENTRY_START) { OccursAround(gap, '#', more[1..], ENTRY_START); }
  }

  lemma TailText(gap: string, recent: seq<TextEntry>)
    requires recent != []
    ensures gap + Tail(RenderAll(recent)) == (gap + (RECENT_TITLE + "\n\n")) + (RenderAll(recent) + "")
  {
  }

  lemma ParseTail(gap: string, recent: seq<TextEntry>)
    requires AllOk(recent) && !Occurs(gap, ENTRY_START)
    ensures ParseEntries(gap + Tail(RenderAll(recent))) == Ok(ParsedAll(recent))
  {
    GapBeforeRecent(gap);
    if recent == [] {
      ParseNone(gap + (RECENT_TITLE + "\n"));
    } else {
      TailText(gap, recent);
      NoMarkerIn("", ENTRY_START);
      ParseNone("");
      ParseMany(gap + (RECENT_TITLE + "\n\n"), recent, "", Ok([]));
      assert ParsedAll(recent) + [] == ParsedAll(recent);
    }
  }

  lemma {:induction false} TierOk(entries: seq<TextEntry>, tier: string)
    requires AllOk(entries)
    ensures AllOk(OfTier(entries, tier))
  {
    if entries != [] { TierOk(entries[..|entries| - 1], tier); }
  }

  lemma MiddleText(head: string, stable: string, tail: string)
    ensures head + (Middle(stable) + tail) == if stable == "" then head + tail else head + (stable + ("\n" + tail))
  {
  }

  lemma RenderedEmpty(entries: seq<TextEntry>)
    ensures RenderAll(entries) == "" <==> entries == []
  {
  }

  lemma BothText(head: string, stable: seq<TextEntry>, tail: string)
    ensures head + (Middle(RenderAll(stable)) + tail)
      == if stable == [] then head + tail else head + (RenderAll(stable) + ("\n" + tail))
  {
    RenderedEmpty(stable);
    MiddleText(head, RenderAll(stable), tail);
  }

  lemma ParsedConcat(a: seq<TextEntry>, b: seq<TextEntry>)
    ensures ParsedAll(a) + ParsedAll(b) == ParsedAll(a + b)
  {
  }

  lemma ParseBoth(head: string, stable: seq<TextEntry>, recent: seq<TextEntry>)
    requires AllOk(stable) && AllOk(recent) && !Occurs(head, ENTRY_START)
    ensures ParseEntries(head + (Middle(RenderAll(stable)) + Tail(RenderAll(recent)))) == Ok(ParsedAll(stable + recent))
  {
    var tail := Tail(RenderAll(recent));
    BothText(head, stable, tail);
    if stable == [] {
      ParseTail(head, recent);
      assert stable + recent == recent;
    } else {
      NoMarkerIn("\n", ENTRY_START);
      ParseTail("\n", recent);
      ParseMany(head, stable, "\n" + tail, Ok(ParsedAll(recent)));
      ParsedConcat(stable, recent);
    }
  }

  // Parsing what was rendered returns the same entries, stable ones first, each
  // group in the order it had.
  lemma RoundTrip(frontmatter: string, entries: seq<TextEntry>)
    requires AllOk(entries) && !Occurs(frontmatter, ENTRY_START)
    ensures ParseEntries(RenderManagedMemory(frontmatter, entries)) == Ok(ParsedAll(Filed(entries)))
  {
    FileShape(frontmatter, entries);
    HeadHasNoMarker(frontmatter);
    TierOk(entries, "stable");
    TierOk(entries, "recent");
    ParseBoth(Head(frontmatter), OfTier(entries, "stable"), OfTier(entries, "recent"));
  }

  // --- rendering again ------------------------------------------------------

  lemma {:induction false} TierConcat(a: seq<TextEntry>, b: seq<TextEntry>, tier: string)
    ensures OfTier(a + b, tier) == OfTier(a, tier) + OfTier(b, tier)
  {
    if b == [] {
      assert a + b == a;
    } else {
      assert (a + b)[..|a + b| - 1] == a + b[..|b| - 1];
      TierConcat(a, b[..|b| - 1], tier);
    }
  }

  lemma TierSnoc(entries: seq<TextEntry>, last: TextEntry, tier: string)
    ensures OfTier(entries + [last], tier)
      == OfTier(entries, tier) + (if ValueOf(last.header, "tier") == Some(tier) then [last] else [])
  {
  }

  lemma {:induction false} TierTwice(entries: seq<TextEntry>, tier: string, other: string)
    ensures OfTier(OfTier(entries, tier), other) == if tier == other then OfTier(entries, tier) else []
  {
    if entries != [] {
      var front, last := entries[..|entries| - 1], entries[|entries| - 1];
      TierTwice(front, tier, other);
      TierSnoc(OfTier(front, tier), last, other);
      assert OfTier(front, tier) + [] == OfTier(front, tier);
    }
  }

  // Rendering the entries as the file lists them gives the same file.
  lemma RenderAgain(frontmatter: string, entries: seq<TextEntry>)
    ensures RenderManagedMemory(frontmatter, Filed(entries)) == RenderManagedMemory(frontmatter, entries)
  {
    var stable, recent := OfTier(entries, "stable"), OfTier(entries, "recent");
    TierConcat(stable, recent, "stable");
    TierConcat(stable, recent, "recent");
    TierTwice(entries, "stable", "stable");
    TierTwice(entries, "recent", "stable");
    TierTwice(entries, "stable", "recent");
    TierTwice(entries, "recent", "recent");
    assert OfTier(Filed(entries), "stable") == stable;
    assert OfTier(Filed(entries), "recent") == recent;
  }

  // --- the frontmatter ------------------------------------------------------

  const FRONTMATTER_END := "\n---\n"

  // What the next rendering takes over from a file.
  function FrontmatterOf(raw: string): string {
    var end := IndexFrom(raw, FRONTMATTER_END, 4);
    TrimEnd(Clamp(raw, 0, Max(0, end + 5)))
  }

  lemma SameAt(a: string, b: string, t: string, j: nat)
    requires a <= b && IsAt(b, t, j) && j + |t| <= |a|
    ensures IsAt(a, t, j)
  {
  }

  lemma SameSearch(a: string, b: string, t: string, from: nat, found: nat)
    requires a <= b && IndexFrom(a, t, from) == found && from <= found
    ensures IndexFrom(b, t, from) == found
  {
    IndexFromFirst(a, t, from);
    forall j: nat | from <= j < found ensures !IsAt(b, t, j) {
      if IsAt(b, t, j) { SameAt(a, b, t, j); }
    }
    assert a[found..found + |t|] == b[found..found + |t|];
    IndexIs(b, t, from, found);
  }

  // A frontmatter that is found once is found again in the rendered file.
  lemma FrontmatterStays(frontmatter: string, entries: seq<TextEntry>)
    requires |frontmatter| >= 8 && EndsSolid(frontmatter)
    requires IndexFrom(frontmatter + "\n", FRONTMATTER_END, 4) == |frontmatter| - 4
    ensures FrontmatterOf(RenderManagedMemory(frontmatter, entries)) == frontmatter
  {
    FileShape(frontmatter, entries);
    HeadStarts(frontmatter, Middle(RenderAll(OfTier(entries, "stable"))) + Tail(RenderAll(OfTier(entries, "recent"))));
    FoundAgain(frontmatter, RenderManagedMemory(frontmatter, entries));
  }

  lemma HeadStarts(frontmatter: string, rest: string)
    ensures frontmatter + "\n" <= Head(frontmatter) + rest
  {
  }

  lemma FoundAgain(frontmatter: string, raw: string)
    requires |frontmatter| >= 8 && EndsSolid(frontmatter) && frontmatter + "\n" <= raw
    requires IndexFrom(frontmatter + "\n", FRONTMATTER_END, 4) == |frontmatter| - 4
    ensures FrontmatterOf(raw) == frontmatter
  {
    SameSearch(frontmatter + "\n", raw, FRONTMATTER_END, 4, |frontmatter| - 4);
    assert Clamp(raw, 0, |frontmatter| + 1) == frontmatter + "\n";
    TrimBreak(frontmatter);
  }

  // --- the parser as a loop -------------------------------------------------

  method NextEntry(text: string) returns (r: Result<Option<(ParsedEntry, string)>, FormatError>)
    ensures r == FirstEntry(text)
  {
    var start := IndexFrom(text, ENTRY_START, 0);
    if start < 0 { return Ok(None); }
    IndexFromFirst(text, ENTRY_START, 0);
    var afterStart := text[start + |ENTRY_START|..];
    var metaEnd := IndexFrom(afterStart, META_END, 0);
    if metaEnd < 0 { return Err(MetadataNotClosed); }
    IndexFromFirst(afterStart, META_END, 0);
    var afterMeta := afterStart[metaEnd + |META_END|..];
    var close := IndexFrom(afterMeta, ENTRY_END, 0);
    if close < 0 { return Err(BodyNotClosed); }
    IndexFromFirst(afterMeta, ENTRY_END, 0);
    var parsed := ParseEntry(afterStart[..metaEnd], afterMeta[..close]);
    if parsed.Err? { return Err(parsed.error); }
    return Ok(Some((parsed.value, DropNewline(afterMeta[close + |ENTRY_END|..]))));
  }

  // Takes one entry after the other off the front of the text that is left.
  method ParseMemoryEntries(raw: string) returns (r: Result<seq<ParsedEntry>, FormatError>)
    ensures r == ParseEntries(raw)
  {
    var entries: seq<ParsedEntry> := [];
    var text := raw;
    PrependNothing(ParseEntries(raw));
    while true
      invariant ParseEntries(raw) == Prepend(entries, ParseEntries(text))
      decreases |text|
    {
      var next := NextEntry(text);
      if next.Err? { return Err(next.error); }
      if next.value.None? {
        assert entries + [] == entries;
        return Ok(entries);
      }
      var (entry, rest) := next.value.value;
      PrependTwice(entries, [entry], ParseEntries(rest));
      entries := entries + [entry];
      text := rest;
    }
  }
}
