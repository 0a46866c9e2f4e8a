// Memory entries written to a file and read back, and exactly which files come back
// as they were.
module MemoryFile {
  import opened Prelude
  import opened Text
  import opened MemoryMarkdown
  import opened MemoryRoundTrip
  import opened MemoryHeader
  import MemoryEntries

  // --- files ----------------------------------------------------------------

  function EntriesFrom(x: Syntax, ps: seq<ParsedEntry>): Result<seq<MemoryEntries.Entry>, FormatError> {
    if ps == [] then Ok([])
    else
      var front, last := EntriesFrom(x, ps[..|ps| - 1]), EntryFrom(x, ps[|ps| - 1]);
      if front.Err? then front else if last.Err? then Err(last.error) else Ok(front.value + [last.value])
  }

  function TextsOf(x: Syntax, entries: seq<MemoryEntries.Entry>): (texts: seq<TextEntry>)
    ensures |texts| == |entries| && forall i :: 0 <= i < |entries| ==> texts[i] == TextOf(x, entries[i])
  {
    seq(|entries|, i requires 0 <= i < |entries| => TextOf(x, entries[i]))
  }

  function WriteFile(x: Syntax, frontmatter: string, entries: seq<MemoryEntries.Entry>): string {
    RenderManagedMemory(frontmatter, TextsOf(x, entries))
  }

  function ReadFile(x: Syntax, raw: string): Result<seq<MemoryEntries.Entry>, FormatError> {
    var parsed := ParseEntries(raw);
    if parsed.Err? then Err(parsed.error) else EntriesFrom(x, parsed.value)
  }

  // --- contents that do not come back ---------------------------------------

  lemma TrimShortens(s: string)
    ensures |Trim(s)| <= |s|
  {
    TrimEndIsPrefix(s);
    TrimStartIsSuffix(TrimEnd(s));
  }

  lemma ShortBody(header: string, rawBody: string, n: nat)
    requires rawBody != "" ==> rawBody[0] == '\n'
    requires |rawBody| < 3 + n && ParseEntry(header, rawBody).Ok?
    ensures |ParseEntry(header, rawBody).value.content| < n
  {
    var body := Trim(DropNewline(rawBody));
    TrimShortens(DropNewline(rawBody));
    TrimShortens(body[2..]);
  }

  lemma ContentWithin(content: string, rest: string)
    ensures "\n- " + content + ("\n" + ENTRY_END + "\n" + rest)
         == ("\n- " + content + "\n") + ENTRY_END + ("\n" + rest)
  {
  }

  // The end marker in the content is found before the real one.
  lemma EarlyEnd(e: TextEntry, rest: string)
    requires Occurs(e.content, ENTRY_END)
    ensures 0 <= IndexFrom(AfterMeta(e, rest), ENTRY_END, 0) < 3 + |e.content|
    ensures IndexFrom(AfterMeta(e, rest), ENTRY_END, 0) + |ENTRY_END| <= |AfterMeta(e, rest)|
  {
    var i: nat :| i <= |e.content| && IsAt(e.content, ENTRY_END, i);
    ContentWithin(e.content, rest);
    IsAtWithin("\n- ", e.content, "\n" + ENTRY_END + "\n" + rest, ENTRY_END, i);
    IndexFromFirst(AfterMeta(e, rest), ENTRY_END, 0);
  }

  lemma CutShort(gap: string, e: TextEntry, rest: string)
    requires Quiet(e.header) && Occurs(e.content, ENTRY_END) && !Occurs(gap, ENTRY_START)
    ensures var first := FirstEntry(gap + (RenderEntry(e) + rest));
      first.Ok? ==> first.value.Some? && |first.value.value.0.content| < |e.content|
  {
    var afterMeta := AfterMeta(e, rest);
    StartsAt(gap, e, rest, AfterStart(e, rest));
    CutAtMeta(e, rest);
    EarlyEnd(e, rest);
    var close := IndexFrom(afterMeta, ENTRY_END, 0);
    FirstOf(gap, HeaderText(e.header), afterMeta, close);
    if ParseEntry(HeaderText(e.header), afterMeta[..close]).Ok? {
      ShortBody(HeaderText(e.header), afterMeta[..close], |e.content|);
    }
  }

  lemma BlankBody()
    ensures Trim(DropNewline("\n- \n")) == "-"
  {
    var body := DropNewline("\n- \n");
    assert body == "- \n" && body[..2] == "- " && "- "[..1] == "-";
    assert TrimEnd(body) == TrimEnd("- ") == TrimEnd("-") == "-";
  }

  // An entry without content cannot be read.
  lemma NoContent(gap: string, e: TextEntry, rest: string)
    requires Quiet(e.header) && e.content == "" && !Occurs(gap, ENTRY_START)
    ensures FirstEntry(gap + (RenderEntry(e) + rest)).Err?
  {
    StartsAt(gap, e, rest, AfterStart(e, rest));
    CutAtMeta(e, rest);
    NoMarkerIn("", ENTRY_END);
    BodyHasNoEnd(e);
    MarkersShape();
    FirstAt(BodyText(e), ENTRY_END, "\n" + rest);
    DropFront(BodyText(e), ENTRY_END, "\n" + rest);
    FirstOf(gap, HeaderText(e.header), AfterMeta(e, rest), |BodyText(e)|);
    assert BodyText(e) == "\n- \n";
    BlankBody();
  }

  // --- headers that do not come back ----------------------------------------

  // Where the header ends is all that its fields depend on.
  lemma FirstFields(gap: string, afterStart: string, end: nat)
    requires IndexFrom(gap + ENTRY_START + afterStart, ENTRY_START, 0) == |gap|
    requires IndexFrom(afterStart, META_END, 0) == end <= |afterStart|
    ensures var first := FirstEntry(gap + ENTRY_START + afterStart);
      first.Ok? ==> first.value.Some? && first.value.value.0.fields == FieldsOf(SplitAt(afterStart[..end], '\n'))
  {
    DropFront(gap, ENTRY_START, afterStart);
    FieldsRead(gap + ENTRY_START + afterStart, |gap|, afterStart, end);
  }

  lemma FieldsRead(text: string, start: nat, afterStart: string, end: nat)
    requires IndexFrom(text, ENTRY_START, 0) == start && start + |ENTRY_START| <= |text|
    requires text[start + |ENTRY_START|..] == afterStart && IndexFrom(afterStart, META_END, 0) == end <= |afterStart|
    ensures var first := FirstEntry(text);
      first.Ok? ==> first.value.Some? && first.value.value.0.fields == FieldsOf(SplitAt(afterStart[..end], '\n'))
  {
  }

  // The first occurrence in a line is the first in a text whose earlier lines have none.
  lemma FirstInLine(front: string, line: string, more: string, t: string, at: nat)
    requires front != "" && front[|front| - 1] == '\n' && '\n' !in t && t != "" && !Occurs(front, t)
    requires IsAt(line, t, at) && forall j: nat :: j < at ==> !IsAt(line, t, j)
    ensures IndexFrom(front + line + more, t, 0) == |front| + at
  {
    IsAtWithin(front, line, more, t, at);
    forall j: nat | j < |front| + at ensures !IsAt(front + line + more, t, j) {
      if IsAt(front + line + more, t, j) { NotBefore(front, line, more, t, at, j); }
    }
    IndexIs(front + line + more, t, 0, |front| + at);
  }

  lemma CharsAt(text: string, t: string, j: nat)
    requires IsAt(text, t, j)
    ensures forall i :: j <= i < j + |t| ==> text[i] in t
  {
    forall i | j <= i < j + |t| ensures text[i] in t { assert text[i] == text[j..j + |t|][i - j]; }
  }

  lemma NotBefore(front: string, line: string, more: string, t: string, at: nat, j: nat)
    requires front != "" && front[|front| - 1] == '\n' && '\n' !in t && t != "" && at + |t| <= |line|
    requires j < |front| + at && IsAt(front + line + more, t, j)
    ensures Occurs(front, t) || (j >= |front| && IsAt(line, t, j - |front|))
  {
    var text := front + line + more;
    CharsAt(text, t, j);
    assert text[|front| - 1] == '\n';
    if j >= |front| {
      assert line[j - |front|..j - |front| + |t|] == text[j..j + |t|];
    } else {
      assert front[j..j + |t|] == text[j..j + |t|];
      assert IsAt(front, t, j);
    }
  }

  lemma {:induction false} QuietFrom(keys: seq<string>, values: seq<Option<string>>)
    requires |keys| == |values| && forall k :: 0 <= k < |keys| ==> KeyOk(keys[k])
    requires forall k :: 0 <= k < |keys| && values[k].Some? ==> !Occurs(values[k].value, META_END)
    ensures Quiet(HeaderFrom(keys, values))
  {
    if keys != [] {
      var n := |keys| - 1;
      QuietFrom(keys[..n], values[..n]);
      if values[n].Some? { MarkerInValue(keys[n], values[n].value); }
    }
  }

  // The text of a header around the line of one value.
  lemma {:induction false} HeaderTextAt(keys: seq<string>, values: seq<Option<string>>, k: nat) returns (more: string)
    requires |keys| == |values| && k < |keys| && values[k].Some?
    ensures HeaderText(HeaderFrom(keys, values))
         == HeaderText(HeaderFrom(keys[..k], values[..k])) + ((keys[k] + ": " + values[k].value) + more)
  {
    var n := |keys| - 1;
    HeaderFromSnoc(keys[..n], values[..n], keys[n], values[n]);
    assert keys == keys[..n] + [keys[n]] && values == values[..n] + [values[n]];
    assert HeaderFrom(keys[..n], values[..n]) + [] == HeaderFrom(keys[..n], values[..n]);
    if k == n {
      more := "\n";
      TextSnoc(HeaderFrom(keys[..n], values[..n]), Field(keys[n], values[n].value));
    } else {
      more := HeaderTextAt(keys[..n], values[..n], k);
      assert keys[..n][..k] == keys[..k] && values[..n][..k] == values[..k];
      if values[n].Some? {
        var last := (keys[n] + ": " + values[n].value) + "\n";
        TextSnoc(HeaderFrom(keys[..n], values[..n]), Field(keys[n], values[n].value));
        Reassociated(HeaderText(HeaderFrom(keys[..k], values[..k])), keys[k] + ": " + values[k].value, more, last);
        more := more + last;
      }
    }
  }

  lemma Reassociated(a: string, b: string, c: string, d: string)
    ensures (a + (b + c)) + d == a + (b + (c + d))
  {
  }

  lemma TextSnoc(header: seq<Field>, f: Field)
    ensures HeaderText(header + [f]) == HeaderText(header) + ((f.key + ": " + f.value) + "\n")
  {
    assert (header + [f])[..|header|] == header;
  }

  lemma HeadHasNoDash(key: string)
    requires KeyOk(key)
    ensures '-' !in key + ": "
  {
    var head := key + ": ";
    forall i | 0 <= i < |head| ensures head[i] != '-' {
      if i < |key| { assert head[i] == key[i] && IsKeyChar(key[i]); }
    }
  }

  lemma CutAtMarker(head: string, value: string, at: nat) returns (before: string, after: string)
    requires '-' !in head && IsAt(head + value, META_END, at)
    ensures value == Around(before, after) && at == |head + before|
  {
    var line := head + value;
    assert line[at] == '-' by { assert line[at..at + 3][0] == line[at]; }
    assert forall i :: 0 <= i < |head| ==> line[i] == head[i];
    before, after := value[..at - |head|], value[at - |head| + 3..];
    assert value[at - |head|..at - |head| + 3] == line[at..at + 3];
  }

  // A line with the marker in its value, cut there.
  lemma CutLine(key: string, value: string) returns (before: string, after: string)
    requires KeyOk(key) && Occurs(value, META_END)
    ensures value == Around(before, after)
    ensures IndexFrom(key + ": " + value, META_END, 0) == |key + ": " + before|
  {
    MarkerInValue(key, value);
    HeadHasNoDash(key);
    IndexFromFirst(key + ": " + value, META_END, 0);
    before, after := CutAtMarker(key + ": ", value, IndexFrom(key + ": " + value, META_END, 0));
  }

  lemma MarkedLook(keys: seq<string>, values: seq<Option<string>>, key: string, before: string)
    requires |keys| == |values| && key !in keys
    ensures Look(CutTable(keys, values, key, before), key)
         == if MatchOf(key, before).Some? then Some(TrimEnd(before)) else None
  {
    NotThere(keys, Visible(values), key);
  }

  // Where the parser finds the header of an entry, and with which fields.
  ghost predicate HeaderFound(text: string, start: nat, afterStart: string, end: nat, fields: map<string, string>) {
    && IndexFrom(text, ENTRY_START, 0) == start && start + |ENTRY_START| <= |text|
    && text[start + |ENTRY_START|..] == afterStart
    && IndexFrom(afterStart, META_END, 0) == end <= |afterStart|
    && FieldsOf(SplitAt(afterStart[..end], '\n')) == fields
  }

  // When its header is cut inside a value.
  lemma MarkedFields(text: string, gap: string, e: TextEntry, rest: string, keys: seq<string>,
                     values: seq<Option<string>>, key: string, value: string, before: string, after: string,
                     more: string)
    returns (afterStart: string, end: nat)
    requires LinesOk(keys, values) && KeyOk(key) && ValueOk(value) && value == Around(before, after)
    requires IndexFrom(key + ": " + value, META_END, 0) == |key + ": " + before|
    requires forall k :: 0 <= k < |keys| && values[k].Some? ==> !Occurs(values[k].value, META_END)
    requires HeaderText(e.header) == HeaderText(HeaderFrom(keys, values)) + ((key + ": " + value) + more)
    requires text == gap + (RenderEntry(e) + rest) && !Occurs(gap, ENTRY_START)
    ensures HeaderFound(text, |gap|, afterStart, end, CutTable(keys, values, key, before))
    ensures after != "" ==> end + |META_END| < |afterStart| && afterStart[end + |META_END|] == after[0]
  {
    var front, tail := HeaderText(HeaderFrom(keys, values)), "";
    afterStart, tail := MarkedStart(text, gap, e, rest, front, key + ": " + value, more);
    end := |front| + |key + ": " + before|;
    MarkedCut(keys, values, key, value, before, after, tail, afterStart, end);
  }

  // The text from the start marker on, around one line of the header.
  lemma MarkedStart(text: string, gap: string, e: TextEntry, rest: string, front: string, line: string, more: string)
    returns (afterStart: string, tail: string)
    requires HeaderText(e.header) == front + (line + more)
    requires text == gap + (RenderEntry(e) + rest) && !Occurs(gap, ENTRY_START)
    ensures afterStart == front + (line + tail)
    ensures IndexFrom(text, ENTRY_START, 0) == |gap| && |gap| + |ENTRY_START| <= |text|
    ensures text[|gap| + |ENTRY_START|..] == afterStart
  {
    tail := more + META_END + AfterMeta(e, rest);
    afterStart := AfterStart(e, rest);
    MarkedText(front, line, more, AfterMeta(e, rest));
    StartsAt(gap, e, rest, afterStart);
    DropFront(gap, ENTRY_START, afterStart);
  }

  lemma StartsAt(gap: string, e: TextEntry, rest: string, afterStart: string)
    requires !Occurs(gap, ENTRY_START) && afterStart == AfterStart(e, rest)
    ensures gap + (RenderEntry(e) + rest) == gap + ENTRY_START + afterStart
    ensures IndexFrom(gap + ENTRY_START + afterStart, ENTRY_START, 0) == |gap|
  {
    EntryRegrouped(e, rest);
    Regroup(gap, RenderEntry(e) + rest, ENTRY_START, afterStart);
    CutAtStart(gap, afterStart);
  }

  // The header is cut inside its first value with a marker.
  lemma MarkedSpoils(x: Syntax, gap: string, e: MemoryEntries.Entry, rest: string, k: nat)
    requires Lawful(x) && Writable(x, e) && !Occurs(gap, ENTRY_START)
    requires k < |KEYS| && ValuesOf(x, e)[k].Some? && Occurs(ValuesOf(x, e)[k].value, META_END)
    requires forall j :: 0 <= j < k && ValuesOf(x, e)[j].Some? ==> !Occurs(ValuesOf(x, e)[j].value, META_END)
    ensures NotBack(x, FirstEntry(gap + (RenderEntry(TextOf(x, e)) + rest)), e)
  {
    var values := ValuesOf(x, e);
    KeysOk();
    var more := HeaderTextAt(KEYS, values, k);
    var before, after := CutLine(KEYS[k], values[k].value);
    var text := gap + (RenderEntry(TextOf(x, e)) + rest);
    var afterStart, end := MarkedFields(text, gap, TextOf(x, e), rest, KEYS[..k], values[..k], KEYS[k],
                                        values[k].value, before, after, more);
    assert KEYS[k] !in KEYS[..k];
    MarkedLook(KEYS[..k], values[..k], KEYS[k], before);
    MarkedDiffers(x, e, k, before, after, text, |gap|, afterStart, end,
                  CutTable(KEYS[..k], values[..k], KEYS[k], before));
  }

  lemma MarkedDiffers(x: Syntax, e: MemoryEntries.Entry, k: nat, before: string, after: string,
                      text: string, start: nat, afterStart: string, end: nat, fields: map<string, string>)
    requires Lawful(x) && Writable(x, e) && k < |KEYS| && ValuesOf(x, e)[k] == Some(Around(before, after))
    requires Occurs(Around(before, after), META_END) && HeaderFound(text, start, afterStart, end, fields)
    requires Look(fields, KEYS[k]) == if MatchOf(KEYS[k], before).Some? then Some(TrimEnd(before)) else None
    ensures NotBack(x, FirstEntry(text), e)
  {
    FieldsRead(text, start, afterStart, end);
    var first := FirstEntry(text);
    if first.Ok? {
      StumpDiffers(x, e, first.value.value.0.fields, first.value.value.0.content, k);
    }
  }

  // The first entry is not read as e.
  ghost predicate NotBack(x: Syntax, first: Result<Option<(ParsedEntry, string)>, FormatError>,
                          e: MemoryEntries.Entry) {
    first.Ok? ==> first.value.Some? && EntryFrom(x, first.value.value.0) != Ok(e)
  }

  lemma MarkedText(front: string, line: string, more: string, afterMeta: string)
    ensures (front + (line + more)) + META_END + afterMeta == front + (line + (more + META_END + afterMeta))
  {
  }

  // Where the parser cuts, and what it finds in front of the cut.
  lemma MarkedCut(keys: seq<string>, values: seq<Option<string>>, key: string, value: string, before: string,
                  after: string, more: string, text: string, end: nat)
    requires LinesOk(keys, values) && KeyOk(key) && ValueOk(value) && value == Around(before, after)
    requires IndexFrom(key + ": " + value, META_END, 0) == |key + ": " + before|
    requires forall k :: 0 <= k < |keys| && values[k].Some? ==> !Occurs(values[k].value, META_END)
    requires text == HeaderText(HeaderFrom(keys, values)) + ((key + ": " + value) + more)
    requires end == |HeaderText(HeaderFrom(keys, values))| + |key + ": " + before|
    ensures IndexFrom(text, META_END, 0) == end <= |text|
    ensures FieldsOf(SplitAt(text[..end], '\n')) == CutTable(keys, values, key, before)
    ensures after != "" ==> end + |META_END| < |text| && text[end + |META_END|] == after[0]
  {
    var header := HeaderFrom(keys, values);
    var front, line := HeaderText(header), key + ": " + value;
    QuietFrom(keys, values);
    HeaderHasNoEnd(header);
    HeaderEnds(header);
    MarkersShape();
    IndexFromFirst(line, META_END, 0);
    FirstInLine(front, line, more, META_END, |key + ": " + before|);
    CutShape(front, key + ": ", before, after, more);
    BeforeShape(before, after);
    CutFields(keys, values, key, before);
  }

  lemma CutShape(front: string, head: string, before: string, after: string, more: string)
    ensures var line := head + Around(before, after);
      && front + line + more == front + (line + more)
      && (front + (line + more))[..|front| + |head + before|] == front + (head + before)
      && (after != "" ==> (front + (line + more))[|front| + |head + before| + |META_END|] == after[0])
  {
  }

  lemma BeforeShape(before: string, after: string)
    requires ValueOk(Around(before, after))
    ensures StartsSolid(before) && '\n' !in before
  {
    var value := Around(before, after);
    assert forall i :: 0 <= i < |before| ==> before[i] == value[i];
  }

  // A value with a line separator is not matched, so its key reads as absent.
  lemma BrokenSpoils(x: Syntax, gap: string, e: MemoryEntries.Entry, rest: string, k: nat)
    requires Lawful(x) && Writable(x, e) && !Occurs(gap, ENTRY_START)
    requires k < |KEYS| && ValuesOf(x, e)[k].Some? && HasBreak(ValuesOf(x, e)[k].value)
    requires forall j :: 0 <= j < |KEYS| && ValuesOf(x, e)[j].Some? ==> !Occurs(ValuesOf(x, e)[j].value, META_END)
    ensures NotBack(x, FirstEntry(gap + (RenderEntry(TextOf(x, e)) + rest)), e)
  {
    var values, text := ValuesOf(x, e), TextOf(x, e);
    KeysOk();
    QuietFrom(KEYS, values);
    StartsAt(gap, text, rest, AfterStart(text, rest));
    CutAtMeta(text, rest);
    FirstFields(gap, AfterStart(text, rest), |HeaderText(text.header)|);
    DropFront(HeaderText(text.header), META_END, AfterMeta(text, rest));
    WholeFields(KEYS, values);
    HeaderLook(KEYS, Visible(values), k);
    var first := FirstEntry(gap + (RenderEntry(text) + rest));
    if first.Ok? {
      StumpDiffers(x, e, first.value.value.0.fields, first.value.value.0.content, k);
    }
  }

  lemma {:induction false} FirstMarked(values: seq<Option<string>>, n: nat) returns (k: nat)
    requires n < |values| && values[n].Some? && Occurs(values[n].value, META_END)
    ensures k <= n && values[k].Some? && Occurs(values[k].value, META_END)
    ensures forall j :: 0 <= j < k && values[j].Some? ==> !Occurs(values[j].value, META_END)
    decreases n
  {
    k := n;
    if exists j :: 0 <= j < n && values[j].Some? && Occurs(values[j].value, META_END) {
      var j :| 0 <= j < n && values[j].Some? && Occurs(values[j].value, META_END);
      k := FirstMarked(values, j);
    }
  }

  lemma HeaderSpoils(x: Syntax, gap: string, e: MemoryEntries.Entry, rest: string)
    requires Lawful(x) && Writable(x, e) && !HeaderPlain(x, e) && !Occurs(gap, ENTRY_START)
    ensures NotBack(x, FirstEntry(gap + (RenderEntry(TextOf(x, e)) + rest)), e)
  {
    var values := ValuesOf(x, e);
    if exists k :: 0 <= k < |KEYS| && values[k].Some? && Occurs(values[k].value, META_END) {
      var n :| 0 <= n < |KEYS| && values[n].Some? && Occurs(values[n].value, META_END);
      var k := FirstMarked(values, n);
      MarkedSpoils(x, gap, e, rest, k);
    } else {
      var k :| 0 <= k < |KEYS| && values[k].Some? && !Plain(values[k].value);
      BrokenSpoils(x, gap, e, rest, k);
    }
  }

  // --- entries that come back -----------------------------------------------

  // A header whose values are plain, and a content that is there and holds no end marker.
  ghost predicate Clean(x: Syntax, e: MemoryEntries.Entry) {
    HeaderPlain(x, e) && e.content != "" && !Occurs(e.content, ENTRY_END)
  }

  lemma CleanText(x: Syntax, e: MemoryEntries.Entry)
    requires Writable(x, e) && Clean(x, e)
    ensures EntryOk(TextOf(x, e)) && EntryFrom(x, ParsedOf(TextOf(x, e))) == Ok(e)
  {
    TextFramed(x, e);
  }

  lemma UncleanSpoils(x: Syntax, gap: string, e: MemoryEntries.Entry, rest: string)
    requires Lawful(x) && Writable(x, e) && !Clean(x, e) && !Occurs(gap, ENTRY_START)
    ensures NotBack(x, FirstEntry(gap + (RenderEntry(TextOf(x, e)) + rest)), e)
  {
    if !HeaderPlain(x, e) {
      HeaderSpoils(x, gap, e, rest);
    } else {
      KeysOk();
      QuietFrom(KEYS, ValuesOf(x, e));
      if e.content == "" { NoContent(gap, TextOf(x, e), rest); } else { CutShort(gap, TextOf(x, e), rest); }
    }
  }

  // --- many entries ---------------------------------------------------------

  ghost predicate AllWritable(x: Syntax, entries: seq<MemoryEntries.Entry>) {
    forall i :: 0 <= i < |entries| ==> Writable(x, entries[i])
  }

  ghost predicate AllClean(x: Syntax, entries: seq<MemoryEntries.Entry>) {
    forall i :: 0 <= i < |entries| ==> Clean(x, entries[i])
  }

  // What was parsed begins with these entries.
  ghost predicate Begins(x: Syntax, r: Result<seq<ParsedEntry>, FormatError>, entries: seq<MemoryEntries.Entry>) {
    && r.Ok? && |entries| <= |r.value|
    && forall i :: 0 <= i < |entries| ==> EntryFrom(x, r.value[i]) == Ok(entries[i])
  }

  lemma BeginsCons(x: Syntax, first: ParsedEntry, r: Result<seq<ParsedEntry>, FormatError>,
                   entries: seq<MemoryEntries.Entry>)
    requires entries != [] && Begins(x, Prepend([first], r), entries)
    ensures EntryFrom(x, first) == Ok(entries[0]) && Begins(x, r, entries[1..])
  {
    forall i | 0 <= i < |entries| - 1 ensures EntryFrom(x, r.value[i]) == Ok(entries[1..][i]) {
      assert EntryFrom(x, ([first] + r.value)[i + 1]) == Ok(entries[i + 1]);
    }
    assert EntryFrom(x, ([first] + r.value)[0]) == Ok(entries[0]);
  }

  lemma SpoiltFirst(x: Syntax, text: string, entries: seq<MemoryEntries.Entry>)
    requires entries != [] && NotBack(x, FirstEntry(text), entries[0])
    ensures !Begins(x, ParseEntries(text), entries)
  {
  }

  lemma SpoiltLater(x: Syntax, gap: string, more: string, entries: seq<MemoryEntries.Entry>)
    requires entries != [] && EntryOk(TextOf(x, entries[0])) && !Occurs(gap, ENTRY_START)
    requires !Begins(x, ParseEntries(more), entries[1..])
    ensures !Begins(x, ParseEntries(gap + (RenderEntry(TextOf(x, entries[0])) + more)), entries)
  {
    var e := TextOf(x, entries[0]);
    ParseOne(gap, e, more);
    if Begins(x, ParseEntries(gap + (RenderEntry(e) + more)), entries) {
      BeginsCons(x, ParsedOf(e), ParseEntries(more), entries);
    }
  }

  lemma SpoiltStep(x: Syntax, gap: string, entries: seq<MemoryEntries.Entry>, more: string)
    requires Lawful(x) && AllWritable(x, entries) && entries != [] && !Occurs(gap, ENTRY_START)
    requires !Clean(x, entries[0]) || !Begins(x, ParseEntries(more), entries[1..])
    ensures !Begins(x, ParseEntries(gap + (RenderEntry(TextOf(x, entries[0])) + more)), entries)
  {
    if !Clean(x, entries[0]) {
      UncleanSpoils(x, gap, entries[0], more);
      SpoiltFirst(x, gap + (RenderEntry(TextOf(x, entries[0])) + more), entries);
    } else {
      CleanText(x, entries[0]);
      SpoiltLater(x, gap, more, entries);
    }
  }

  lemma TextsTail(x: Syntax, entries: seq<MemoryEntries.Entry>, rest: string)
    requires entries != []
    ensures RenderAll(TextsOf(x, entries)) + rest
         == RenderEntry(TextOf(x, entries[0])) + (RenderAll(TextsOf(x, entries[1..])) + rest)
  {
    AllCons(TextsOf(x, entries), rest);
    assert TextsOf(x, entries)[1..] == TextsOf(x, entries[1..]);
  }

  lemma {:induction false} SpoiltMany(x: Syntax, gap: string, entries: seq<MemoryEntries.Entry>, rest: string)
    requires Lawful(x) && AllWritable(x, entries) && !AllClean(x, entries) && !Occurs(gap, ENTRY_START)
    ensures !Begins(x, ParseEntries(gap + (RenderAll(TextsOf(x, entries)) + rest)), entries)
    decreases |entries|
  {
    var more := RenderAll(TextsOf(x, entries[1..])) + rest;
    if Clean(x, entries[0]) {
      CleanTail(x, entries);
      NoMarkerIn("", ENTRY_START);
      SpoiltMany(x, "", entries[1..], rest);
      EmptyFront(more);
    }
    TextsTail(x, entries, rest);
    SpoiltStep(x, gap, entries, more);
  }

  lemma CleanTail(x: Syntax, entries: seq<MemoryEntries.Entry>)
    requires entries != [] && Clean(x, entries[0]) && !AllClean(x, entries) && AllWritable(x, entries)
    ensures !AllClean(x, entries[1..]) && AllWritable(x, entries[1..])
  {
    var i :| 0 <= i < |entries| && !Clean(x, entries[i]);
    assert entries[1..][i - 1] == entries[i];
  }

  lemma BeginsBoth(x: Syntax, front: seq<ParsedEntry>, a: seq<MemoryEntries.Entry>, b: seq<MemoryEntries.Entry>,
                   r: Result<seq<ParsedEntry>, FormatError>)
    requires |front| == |a| && Begins(x, Prepend(front, r), a + b)
    ensures Begins(x, r, b)
  {
    forall i | 0 <= i < |b| ensures EntryFrom(x, r.value[i]) == Ok(b[i]) {
      assert (front + r.value)[|a| + i] == r.value[i] && (a + b)[|a| + i] == b[i];
    }
  }

  lemma BeginsFront(x: Syntax, a: seq<MemoryEntries.Entry>, b: seq<MemoryEntries.Entry>,
                    r: Result<seq<ParsedEntry>, FormatError>)
    requires Begins(x, r, a + b)
    ensures Begins(x, r, a)
  {
    forall i | 0 <= i < |a| ensures EntryFrom(x, r.value[i]) == Ok(a[i]) { assert (a + b)[i] == a[i]; }
  }

  lemma TextsOk(x: Syntax, entries: seq<MemoryEntries.Entry>)
    requires AllWritable(x, entries) && AllClean(x, entries)
    ensures AllOk(TextsOf(x, entries))
  {
    forall i | 0 <= i < |entries| ensures EntryOk(TextsOf(x, entries)[i]) { CleanText(x, entries[i]); }
  }

  // --- the whole file -------------------------------------------------------

  lemma SpoiltTail(x: Syntax, gap: string, recent: seq<MemoryEntries.Entry>)
    requires Lawful(x) && AllWritable(x, recent) && !AllClean(x, recent) && !Occurs(gap, ENTRY_START)
    ensures !Begins(x, ParseEntries(gap + Tail(RenderAll(TextsOf(x, recent)))), recent)
  {
    GapBeforeRecent(gap);
    TailText(gap, TextsOf(x, recent));
    SpoiltMany(x, gap + (RECENT_TITLE + "\n\n"), recent, "");
  }

  lemma SpoiltStable(x: Syntax, head: string, stable: seq<MemoryEntries.Entry>, recent: seq<MemoryEntries.Entry>,
                     rest: string)
    requires Lawful(x) && AllWritable(x, stable) && !AllClean(x, stable) && !Occurs(head, ENTRY_START)
    ensures !Begins(x, ParseEntries(head + (RenderAll(TextsOf(x, stable)) + rest)), stable + recent)
  {
    SpoiltMany(x, head, stable, rest);
    var r := ParseEntries(head + (RenderAll(TextsOf(x, stable)) + rest));
    if Begins(x, r, stable + recent) { BeginsFront(x, stable, recent, r); }
  }

  lemma SpoiltRecent(x: Syntax, head: string, stable: seq<MemoryEntries.Entry>, recent: seq<MemoryEntries.Entry>,
                     rest: string)
    requires AllOk(TextsOf(x, stable)) && stable != [] && !Occurs(head, ENTRY_START)
    requires !Begins(x, ParseEntries(rest), recent)
    ensures !Begins(x, ParseEntries(head + (RenderAll(TextsOf(x, stable)) + rest)), stable + recent)
  {
    var texts := TextsOf(x, stable);
    ParseMany(head, texts, rest, ParseEntries(rest));
    if Begins(x, ParseEntries(head + (RenderAll(texts) + rest)), stable + recent) {
      BeginsBoth(x, ParsedAll(texts), stable, recent, ParseEntries(rest));
    }
  }

  lemma SpoiltBoth(x: Syntax, head: string, stable: seq<MemoryEntries.Entry>, recent: seq<MemoryEntries.Entry>)
    requires Lawful(x) && AllWritable(x, stable) && AllWritable(x, recent) && !Occurs(head, ENTRY_START)
    requires !(AllClean(x, stable) && AllClean(x, recent))
    ensures !Begins(x, ParseEntries(head + (Middle(RenderAll(TextsOf(x, stable)))
                                            + Tail(RenderAll(TextsOf(x, recent))))), stable + recent)
  {
    var tail := Tail(RenderAll(TextsOf(x, recent)));
    BothText(head, TextsOf(x, stable), tail);
    if stable == [] {
      SpoiltTail(x, head, recent);
      assert stable + recent == recent;
    } else if !AllClean(x, stable) {
      SpoiltStable(x, head, stable, recent, "\n" + tail);
    } else {
      NoMarkerIn("\n", ENTRY_START);
      SpoiltTail(x, "\n", recent);
      TextsOk(x, stable);
      SpoiltRecent(x, head, stable, recent, "\n" + tail);
    }
  }

  // Selecting by tier and writing out commute, however an entry is written.
  function Written(write: MemoryEntries.Entry -> TextEntry, entries: seq<MemoryEntries.Entry>): seq<TextEntry> {
    seq(|entries|, i requires 0 <= i < |entries| => write(entries[i]))
  }

  lemma {:induction false} WrittenTier(write: MemoryEntries.Entry -> TextEntry, entries: seq<MemoryEntries.Entry>,
                                       tier: MemoryEntries.Tier, name: string)
    requires forall e :: ValueOf(write(e).header, "tier") == Some(name) <==> e.tier == tier
    ensures OfTier(Written(write, entries), name) == Written(write, MemoryEntries.OfTier(entries, tier))
  {
    if entries != [] {
      var n := |entries| - 1;
      WrittenTier(write, entries[..n], tier, name);
      assert Written(write, entries)[..n] == Written(write, entries[..n]);
    }
  }

  lemma TierTexts(x: Syntax, entries: seq<MemoryEntries.Entry>, tier: MemoryEntries.Tier)
    ensures OfTier(TextsOf(x, entries), TierText(tier)) == TextsOf(x, MemoryEntries.OfTier(entries, tier))
  {
    var write := (e: MemoryEntries.Entry) => TextOf(x, e);
    forall e: MemoryEntries.Entry
      ensures ValueOf(write(e).header, "tier") == Some(TierText(tier)) <==> e.tier == tier
    {
      TextTier(x, e);
    }
    WrittenTier(write, entries, tier, TierText(tier));
    assert TextsOf(x, entries) == Written(write, entries);
    var chosen := MemoryEntries.OfTier(entries, tier);
    assert TextsOf(x, chosen) == Written(write, chosen);
  }

  lemma TextsConcat(x: Syntax, a: seq<MemoryEntries.Entry>, b: seq<MemoryEntries.Entry>)
    ensures TextsOf(x, a + b) == TextsOf(x, a) + TextsOf(x, b)
  {
  }

  lemma FiledTexts(x: Syntax, entries: seq<MemoryEntries.Entry>)
    ensures Filed(TextsOf(x, entries)) == TextsOf(x, MemoryEntries.Filed(entries))
  {
    TierTexts(x, entries, MemoryEntries.Stable);
    TierTexts(x, entries, MemoryEntries.Recent);
    TextsConcat(x, MemoryEntries.OfTier(entries, MemoryEntries.Stable),
                MemoryEntries.OfTier(entries, MemoryEntries.Recent));
  }

  lemma TierMembers(x: Syntax, entries: seq<MemoryEntries.Entry>, tier: MemoryEntries.Tier)
    requires AllWritable(x, entries)
    ensures var chosen := MemoryEntries.OfTier(entries, tier);
      AllWritable(x, chosen) && (AllClean(x, entries) ==> AllClean(x, chosen))
  {
    var chosen := MemoryEntries.OfTier(entries, tier);
    forall i | 0 <= i < |chosen| ensures chosen[i] in entries { MemoryEntries.InTier(entries, tier, chosen[i]); }
  }

  lemma CleanFiled(x: Syntax, entries: seq<MemoryEntries.Entry>)
    requires AllClean(x, MemoryEntries.OfTier(entries, MemoryEntries.Stable))
    requires AllClean(x, MemoryEntries.OfTier(entries, MemoryEntries.Recent))
    ensures AllClean(x, entries)
  {
    forall i | 0 <= i < |entries| ensures Clean(x, entries[i]) {
      MemoryEntries.InTier(entries, entries[i].tier, entries[i]);
    }
  }

  // A file with an entry that is not clean does not give the entries back.
  lemma SpoiltFile(x: Syntax, frontmatter: string, entries: seq<MemoryEntries.Entry>)
    requires Lawful(x) && AllWritable(x, entries) && !AllClean(x, entries) && !Occurs(frontmatter, ENTRY_START)
    ensures !Begins(x, ParseEntries(WriteFile(x, frontmatter, entries)), MemoryEntries.Filed(entries))
  {
    var stable, recent := MemoryEntries.OfTier(entries, MemoryEntries.Stable), MemoryEntries.OfTier(entries,
        MemoryEntries.Recent);
    FileShape(frontmatter, TextsOf(x, entries));
    HeadHasNoMarker(frontmatter);
    TierTexts(x, entries, MemoryEntries.Stable);
    TierTexts(x, entries, MemoryEntries.Recent);
    TierMembers(x, entries, MemoryEntries.Stable);
    TierMembers(x, entries, MemoryEntries.Recent);
    if AllClean(x, stable) && AllClean(x, recent) { CleanFiled(x, entries); }
    SpoiltBoth(x, Head(frontmatter), stable, recent);
  }

  lemma TextsSnoc(x: Syntax, front: seq<MemoryEntries.Entry>, last: MemoryEntries.Entry)
    ensures TextsOf(x, front + [last]) == TextsOf(x, front) + [TextOf(x, last)]
  {
  }

  lemma EntriesSnoc(x: Syntax, ps: seq<ParsedEntry>, p: ParsedEntry, es: seq<MemoryEntries.Entry>,
                    e: MemoryEntries.Entry)
    requires EntriesFrom(x, ps) == Ok(es) && EntryFrom(x, p) == Ok(e)
    ensures EntriesFrom(x, ps + [p]) == Ok(es + [e])
  {
    assert (ps + [p])[..|ps|] == ps;
  }

  lemma ParsedSnoc(texts: seq<TextEntry>, text: TextEntry)
    ensures ParsedAll(texts + [text]) == ParsedAll(texts) + [ParsedOf(text)]
  {
  }

  lemma {:induction false} EntriesBack(x: Syntax, entries: seq<MemoryEntries.Entry>)
    requires AllWritable(x, entries) && AllClean(x, entries)
    ensures EntriesFrom(x, ParsedAll(TextsOf(x, entries))) == Ok(entries)
  {
    if entries != [] {
      var n := |entries| - 1;
      var front, last := entries[..n], entries[n];
      assert entries == front + [last];
      EntriesBack(x, front);
      CleanText(x, last);
      TextsSnoc(x, front, last);
      ParsedSnoc(TextsOf(x, front), TextOf(x, last));
      EntriesSnoc(x, ParsedAll(TextsOf(x, front)), ParsedOf(TextOf(x, last)), front, last);
    }
  }

  // Reading goes entry by entry.
  lemma {:induction false} EachRead(x: Syntax, ps: seq<ParsedEntry>)
    requires EntriesFrom(x, ps).Ok?
    ensures var es := EntriesFrom(x, ps).value;
      |es| == |ps| && forall i :: 0 <= i < |ps| ==> EntryFrom(x, ps[i]) == Ok(es[i])
  {
    if ps != [] {
      var n := |ps| - 1;
      EachRead(x, ps[..n]);
      assert forall i :: 0 <= i < n ==> ps[..n][i] == ps[i];
    }
  }

  lemma NotFiled(x: Syntax, ps: seq<ParsedEntry>, entries: seq<MemoryEntries.Entry>)
    requires !Begins(x, Ok(ps), entries)
    ensures EntriesFrom(x, ps) != Ok(entries)
  {
    if EntriesFrom(x, ps).Ok? { EachRead(x, ps); }
  }

  lemma FiledMembers(x: Syntax, entries: seq<MemoryEntries.Entry>)
    requires AllWritable(x, entries) && AllClean(x, entries)
    ensures AllWritable(x, MemoryEntries.Filed(entries)) && AllClean(x, MemoryEntries.Filed(entries))
  {
    var filed := MemoryEntries.Filed(entries);
    forall i | 0 <= i < |filed| ensures filed[i] in entries { MemoryEntries.InFiled(entries, filed[i]); }
  }

  lemma SoundFile(x: Syntax, frontmatter: string, entries: seq<MemoryEntries.Entry>)
    requires AllWritable(x, entries) && AllClean(x, entries) && !Occurs(frontmatter, ENTRY_START)
    ensures ReadFile(x, WriteFile(x, frontmatter, entries)) == Ok(MemoryEntries.Filed(entries))
  {
    TextsOk(x, entries);
    RoundTrip(frontmatter, TextsOf(x, entries));
    FiledTexts(x, entries);
    FiledMembers(x, entries);
    EntriesBack(x, MemoryEntries.Filed(entries));
  }

  // Entries written to a file and read back are the same entries, stable ones
  // first, exactly when every content is there and holds no end marker, and no
  // header value holds the marker that closes a header or a line separator.
  lemma FileRoundTrip(x: Syntax, frontmatter: string, entries: seq<MemoryEntries.Entry>)
    requires Lawful(x) && AllWritable(x, entries) && !Occurs(frontmatter, ENTRY_START)
    ensures ReadFile(x, WriteFile(x, frontmatter, entries)) == Ok(MemoryEntries.Filed(entries))
       <==> forall i :: 0 <= i < |entries| ==>
              entries[i].content != "" && !Occurs(entries[i].content, ENTRY_END) && HeaderPlain(x, entries[i])
  {
    assert AllClean(x, entries) <==> forall i :: 0 <= i < |entries| ==>
      entries[i].content != "" && !Occurs(entries[i].content, ENTRY_END) && HeaderPlain(x, entries[i]);
    if AllClean(x, entries) {
      SoundFile(x, frontmatter, entries);
    } else {
      SpoiltFile(x, frontmatter, entries);
      var parsed := ParseEntries(WriteFile(x, frontmatter, entries));
      if parsed.Ok? { NotFiled(x, parsed.value, MemoryEntries.Filed(entries)); }
    }
  }

  // --- what the failing ones come back as ------------------------------------

  // A content with the end marker comes back cut at the marker.
  lemma ContentIsCut(gap: string, e: TextEntry, before: string, after: string, rest: string)
    requires Framed(e) && !Occurs(gap, ENTRY_START)
    requires e.content == before + ENTRY_END + after
    requires before != "" && StartsSolid(before) && EndsSolid(before) && !Occurs(before, ENTRY_END)
    ensures var first := FirstEntry(gap + (RenderEntry(e) + rest));
      first.Ok? && first.value.Some? && first.value.value.0 == ParsedEntry(TableOf(e.header), before)
  {
    StartsAt(gap, e, rest, AfterStart(e, rest));
    CutAtMeta(e, rest);
    CutBody(e, before, after, rest);
    FirstOf(gap, HeaderText(e.header), AfterMeta(e, rest), 3 + |before|);
    CutParses(e, before);
  }

  lemma CutParses(e: TextEntry, before: string)
    requires Framed(e) && before != "" && StartsSolid(before) && EndsSolid(before)
    ensures ParseEntry(HeaderText(e.header), "\n- " + before) == Ok(ParsedEntry(TableOf(e.header), before))
  {
    HeaderParses(e.header);
    CutContent(before);
  }

  lemma CutBody(e: TextEntry, before: string, after: string, rest: string)
    requires e.content == before + ENTRY_END + after && !Occurs(before, ENTRY_END)
    ensures IndexFrom(AfterMeta(e, rest), ENTRY_END, 0) == 3 + |before|
    ensures AfterMeta(e, rest)[..3 + |before|] == "\n- " + before
    ensures 3 + |before| + |ENTRY_END| <= |AfterMeta(e, rest)|
  {
    MarkersShape();
    var gap, more := "\n- " + before, after + "\n" + ENTRY_END + ("\n" + rest);
    assert AfterMeta(e, rest) == gap + ENTRY_END + more;
    if Occurs(gap, ENTRY_END) {
      assert gap == "" + ['\n'] + ("- " + before);
      NoMarkerIn("", ENTRY_END);
      OccursAround("", '\n', "- " + before, ENTRY_END);
      DashOccurs(before);
    }
    FirstAt(gap, ENTRY_END, more);
  }

  lemma CutContent(before: string)
    requires before != "" && StartsSolid(before) && EndsSolid(before)
    ensures var body := Trim(DropNewline("\n- " + before)); "- " <= body && Trim(body[2..]) == before
  {
    var line := "- " + before;
    assert DropNewline("\n- " + before) == line;
    TrimSolid(line);
    assert line[2..] == before;
    TrimSolid(before);
  }

  // --- a file without entries -----------------------------------------------

  // It reads back exactly when the frontmatter, in which a title may stand, holds no
  // start marker.
  lemma EmptyFile(x: Syntax, frontmatter: string)
    ensures ReadFile(x, WriteFile(x, frontmatter, [])) == Ok([]) <==> !Occurs(frontmatter, ENTRY_START)
  {
    var raw := WriteFile(x, frontmatter, []);
    assert TextsOf(x, []) == [];
    FileShape(frontmatter, []);
    if Occurs(frontmatter, ENTRY_START) {
      var rest := "\n\n" + STABLE_TITLE + "\n\n" + (Middle("") + Tail(""));
      assert raw == "" + frontmatter + rest;
      OccursWithin("", frontmatter, rest, ENTRY_START);
      IndexFromFirst(raw, ENTRY_START, 0);
      var parsed := ParseEntries(raw);
      if parsed.Ok? && EntriesFrom(x, parsed.value).Ok? { EachRead(x, parsed.value); }
    } else {
      HeadHasNoMarker(frontmatter);
      ParseTail(Head(frontmatter), []);
      EmptyFront(Tail(""));
    }
  }
}
