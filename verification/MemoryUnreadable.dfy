// A header value that makes a memory file unreadable for good, and a topic title
// that is such a value.
module MemoryUnreadable {
  import opened Prelude
  import opened Text
  import opened MemoryMarkdown
  import opened MemoryRoundTrip
  import opened MemoryHeader
  import opened MemoryFile
  import MemoryEntries

  // What stands behind the marker is taken for the body, and a body opens with a dash.
  lemma TailIsNoBody(text: string, start: nat, afterStart: string, end: nat, fields: map<string, string>)
    requires HeaderFound(text, start, afterStart, end, fields) && end + |META_END| < |afterStart|
    requires !IsSpace(afterStart[end + |META_END|]) && afterStart[end + |META_END|] != '-'
    ensures FirstEntry(text).Err?
  {
    var header, afterMeta := afterStart[..end], afterStart[end + |META_END|..];
    IndexFromFirst(afterMeta, ENTRY_END, 0);
    var close := IndexFrom(afterMeta, ENTRY_END, 0);
    if close < 0 {
      NeverClosed(text, start, afterStart, end);
    } else {
      NoBodyParses(header, afterMeta, close);
      FirstCut(text, start, afterStart, header, afterMeta, close);
    }
  }

  lemma NeverClosed(text: string, start: nat, afterStart: string, end: nat)
    requires IndexFrom(text, ENTRY_START, 0) == start && start + |ENTRY_START| <= |text|
    requires text[start + |ENTRY_START|..] == afterStart
    requires IndexFrom(afterStart, META_END, 0) == end && end + |META_END| <= |afterStart|
    requires IndexFrom(afterStart[end + |META_END|..], ENTRY_END, 0) < 0
    ensures FirstEntry(text) == Err(BodyNotClosed)
  {
    assert start >= 0 && end >= 0;
  }

  lemma NoBodyParses(header: string, afterMeta: string, close: nat)
    requires afterMeta != "" && !IsSpace(afterMeta[0]) && afterMeta[0] != '-' && close <= |afterMeta|
    ensures ParseEntry(header, afterMeta[..close]).Err?
  {
    if close > 0 { SolidBody(afterMeta[..close]); }
  }

  lemma SolidBody(rawBody: string)
    requires rawBody != "" && !IsSpace(rawBody[0]) && rawBody[0] != '-'
    ensures !("- " <= Trim(DropNewline(rawBody)))
  {
    TrimEndIsPrefix(rawBody);
    assert !Blank(rawBody);
    assert TrimEnd(rawBody)[0] == rawBody[0];
    assert Trim(rawBody) == TrimEnd(rawBody);
  }

  lemma MarkerDash(line: string, j: nat)
    requires IsAt(line, META_END, j)
    ensures j < |line| && line[j] == '-'
  {
    assert line[j..j + 3][0] == line[j];
  }

  lemma FirstDash(head: string, after: string)
    requires '-' !in head
    ensures IndexFrom(head + Around("", after), META_END, 0) == |head|
  {
    var line := head + Around("", after);
    assert line[|head|..|head| + 3] == META_END;
    assert forall j :: 0 <= j < |head| ==> line[j] == head[j];
    forall j: nat | j < |head| ensures !IsAt(line, META_END, j) {
      if IsAt(line, META_END, j) { MarkerDash(line, j); }
    }
    IndexIs(line, META_END, 0, |head|);
  }

  lemma MarkedBreaks(x: Syntax, e: MemoryEntries.Entry, gap: string, rest: string, k: nat, before: string,
                     after: string)
    requires Lawful(x) && Writable(x, e) && !Occurs(gap, ENTRY_START)
    requires k < |KEYS| && ValuesOf(x, e)[k] == Some(Around(before, after))
    requires forall j :: 0 <= j < k && ValuesOf(x, e)[j].Some? ==> !Occurs(ValuesOf(x, e)[j].value, META_END)
    requires IndexFrom(KEYS[k] + ": " + Around(before, after), META_END, 0) == |KEYS[k] + ": " + before|
    requires after != "" && !IsSpace(after[0]) && after[0] != '-'
    ensures FirstEntry(gap + (RenderEntry(TextOf(x, e)) + rest)).Err?
  {
    var values, text := ValuesOf(x, e), gap + (RenderEntry(TextOf(x, e)) + rest);
    KeysOk();
    var more := HeaderTextAt(KEYS, values, k);
    var afterStart, end := MarkedFields(text, gap, TextOf(x, e), rest, KEYS[..k], values[..k], KEYS[k],
                                        Around(before, after), before, after, more);
    TailIsNoBody(text, |gap|, afterStart, end, CutTable(KEYS[..k], values[..k], KEYS[k], before));
  }

  lemma QuietFront(x: Syntax, e: MemoryEntries.Entry)
    requires Lawful(x) && Writable(x, e) && Plain(e.id)
    ensures forall j :: 0 <= j < 5 && ValuesOf(x, e)[j].Some? ==> !Occurs(ValuesOf(x, e)[j].value, META_END)
  {
    TextsArePlain();
  }

  // An entry with the marker inside its aliases makes every file it is in unreadable.
  lemma AliasBreaksFile(x: Syntax, e: MemoryEntries.Entry, gap: string, rest: string, before: string, after: string)
    requires Lawful(x) && Writable(x, e) && Plain(e.id) && !Occurs(gap, ENTRY_START)
    requires x.list(e.aliases) == Around(before, after) && '-' !in before
    requires after != "" && !IsSpace(after[0]) && after[0] != '-'
    ensures ParseEntries(gap + (RenderEntry(TextOf(x, e)) + rest)).Err?
  {
    QuietFront(x, e);
    AliasLine(before, after);
    MarkedBreaks(x, e, gap, rest, 5, before, after);
  }

  lemma AliasLine(before: string, after: string)
    requires '-' !in before
    ensures IndexFrom(KEYS[5] + ": " + Around(before, after), META_END, 0) == |KEYS[5] + ": " + before|
  {
    var head := "aliases: " + before;
    assert KEYS[5] + ": " + Around(before, after) == head + Around("", after);
    assert '-' !in "aliases: ";
    FirstDash(head, after);
  }

  // --- a topic title that does that -----------------------------------------

  // remember takes any trimmed Chinese title and makes it an alias.
  const TITLE_FRONT := "项目"
  const TITLE_BACK := "上线计划"
  const QUOTED_FRONT := "[\"" + TITLE_FRONT
  const QUOTED_BACK := TITLE_BACK + "\"]"
  const STAMP := "2026-01-01T00:00:00+08:00"

  function Title(): string {
    Around(TITLE_FRONT, TITLE_BACK)
  }

  function QuotedTitle(): string {
    Around(QUOTED_FRONT, QUOTED_BACK)
  }

  // JSON and the other syntaxes, as far as this one entry needs them.
  const QUOTING := Syntax(
    list := list => if list == [Title()] then QuotedTitle() else "[]",
    readList := text => if text == QuotedTitle() then Some([Title()]) else if text == "[]" then Some([]) else None,
    rows := rows => "1",
    readRows := text => [1],
    ids := ids => Join(ids, ','),
    readIds := text => [],
    isTimestamp := text => text == STAMP,
    isEvidenceKind := text => false,
    isMemoryKind := text => false)

  const TOPIC_ENTRY := MemoryEntries.Entry(
    "mem_1", STAMP, STAMP, "x", [], [], None, None, MemoryEntries.Recent, MemoryEntries.Active, [Title()], None, [])

  lemma TextsOfTopic()
    ensures Plain(STAMP) && Plain("[]") && Plain("1") && Plain("mem_1")
    ensures ValueOk(STAMP) && ValueOk("[]") && ValueOk("mem_1") && ValueOk("recent") && ValueOk("active")
  {
    StampPlain();
    NoMarkerIn("[]", META_END);
    NoMarkerIn("1", META_END);
    NoMarkerIn("mem_1", META_END);
  }

  lemma StampPlain()
    ensures Plain(STAMP) && ValueOk(STAMP)
  {
    assert '>' !in STAMP;
    if Occurs(STAMP, META_END) { MarkerAngle(STAMP); }
  }

  lemma MarkerAngle(s: string)
    requires Occurs(s, META_END)
    ensures '>' in s
  {
    var i: nat :| i <= |s| && IsAt(s, META_END, i);
    assert s[i..i + 3][2] == s[i + 2];
  }

  lemma QuotedIsList()
    ensures ValueOk(QuotedTitle()) && '-' !in QUOTED_FRONT && QUOTED_BACK != "" && QUOTED_BACK[0] == '上'
    ensures QuotedTitle() != "[]" && !IsSpace('上')
  {
  }

  lemma QuotingLawful()
    ensures Lawful(QUOTING)
  {
    TextsOfTopic();
    forall list, before, after | QUOTING.list(list) == Around(before, after)
      ensures QUOTING.readList(TrimEnd(before)) != Some(list)
    {
      ShortList(list, before, after);
    }
    forall ids, before, after | QUOTING.ids(ids) == Around(before, after)
      ensures QUOTING.readIds(TrimEnd(before)) != ids
    {
      assert ids == [] ==> |Around(before, after)| == 0;
    }
  }

  lemma ShortList(list: seq<string>, before: string, after: string)
    requires QUOTING.list(list) == Around(before, after)
    ensures QUOTING.readList(TrimEnd(before)) != Some(list)
  {
    TrimEndIsPrefix(before);
    QuotedIsList();
    assert |Around(before, after)| >= 3 + |before|;
    assert list == [Title()];
  }

  lemma TopicWritable()
    ensures Writable(QUOTING, TOPIC_ENTRY)
  {
    TextsOfTopic();
    QuotedIsList();
  }

  // The entry is one the store accepts, and the file it is written to can never be
  // parsed again.
  lemma TitleBreaksFile(frontmatter: string)
    requires !Occurs(frontmatter, ENTRY_START)
    ensures Lawful(QUOTING) && Writable(QUOTING, TOPIC_ENTRY)
    ensures ReadFile(QUOTING, WriteFile(QUOTING, frontmatter, [TOPIC_ENTRY])).Err?
  {
    QuotingLawful();
    TopicWritable();
    TextsOfTopic();
    QuotedIsList();
    var gap := Head(frontmatter) + (RECENT_TITLE + "\n\n");
    HeadHasNoMarker(frontmatter);
    GapBeforeRecent(Head(frontmatter));
    AliasBreaksFile(QUOTING, TOPIC_ENTRY, gap, "", QUOTED_FRONT, QUOTED_BACK);
    OneRecent(QUOTING, frontmatter, TOPIC_ENTRY);
  }

  lemma OneRecent(x: Syntax, frontmatter: string, e: MemoryEntries.Entry)
    requires e.tier == MemoryEntries.Recent
    ensures WriteFile(x, frontmatter, [e])
         == (Head(frontmatter) + (RECENT_TITLE + "\n\n")) + (RenderEntry(TextOf(x, e)) + "")
  {
    var texts := [TextOf(x, e)];
    FileShape(frontmatter, TextsOf(x, [e]));
    TierTexts(x, [e], MemoryEntries.Stable);
    TierTexts(x, [e], MemoryEntries.Recent);
    assert [e][..0] == [] && texts[..0] == [];
    assert MemoryEntries.OfTier([e], MemoryEntries.Stable) == []
        && MemoryEntries.OfTier([e], MemoryEntries.Recent) == [e];
    assert TextsOf(x, []) == [] && TextsOf(x, [e]) == texts;
    TailText(Head(frontmatter), texts);
    assert RenderAll(texts) == "" + RenderEntry(TextOf(x, e)) == RenderEntry(TextOf(x, e));
    EmptyFront(Tail(RenderAll(texts)));
  }
}
