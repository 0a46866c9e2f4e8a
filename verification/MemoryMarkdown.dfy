// The text form of a memory file: entries between comment markers, stable ones
// first, and the parser that finds them again.
module MemoryMarkdown {
  import opened Prelude
  import opened Text

  const ENTRY_START := "<!-- memory-entry"
  const ENTRY_END := "<!-- /memory-entry -->"
  const META_END := "-->"
  const STABLE_TITLE := "## 稳定记忆"
  const RECENT_TITLE := "## 最近线索"

  datatype Field = Field(key: string, value: string)

  // An entry as its header table and its content.
  datatype TextEntry = TextEntry(header: seq<Field>, content: string)

  datatype ParsedEntry = ParsedEntry(fields: map<string, string>, content: string)

  datatype FormatError = MetadataNotClosed | BodyNotClosed | MissingFields | BadList | BadTimestamp | SupersedesItself

  // --- headers --------------------------------------------------------------

  predicate IsLetter(c: char) {
    'a' <= c <= 'z' || 'A' <= c <= 'Z'
  }

  predicate IsKeyChar(c: char) {
    IsLetter(c) || '0' <= c <= '9'
  }

  predicate BreaksLine(c: char) {
    c == '\n' || c == '\r' || c == '\U{2028}' || c == '\U{2029}'
  }

  predicate HasBreak(s: string) {
    exists i :: 0 <= i < |s| && BreaksLine(s[i])
  }

  // The length of the run of key characters a line begins with.
  function KeyLength(line: string): (n: nat)
    ensures n <= |line|
    ensures forall i :: 0 <= i < n ==> IsKeyChar(line[i])
    ensures n < |line| ==> !IsKeyChar(line[n])
  {
    if line == "" || !IsKeyChar(line[0]) then 0
    else
      var rest := KeyLength(line[1..]);
      assert forall i :: 1 <= i < 1 + rest ==> line[i] == line[1..][i - 1];
      1 + rest
  }

  // A trimmed line of the form key: value.
  function MatchField(line: string): Option<Field> {
    var n := KeyLength(line);
    if n == 0 || !IsLetter(line[0]) || n >= |line| || line[n] != ':' then None
    else
      var value := TrimStart(line[n + 1..]);
      if value == "" || HasBreak(value) then None else Some(Field(line[..n], value))
  }

  function FieldsOf(lines: seq<string>): map<string, string> {
    if lines == [] then map[]
    else
      var before := FieldsOf(lines[..|lines| - 1]);
      var field := MatchField(Trim(lines[|lines| - 1]));
      if field.Some? then before[field.value.key := field.value.value] else before
  }

  predicate Complete(fields: map<string, string>) {
    && "id" in fields && "createdAt" in fields
    && "tier" in fields && fields["tier"] in {"stable", "recent"}
    && ("status" in fields ==> fields["status"] in {"active", "disputed", "superseded"})
  }

  // --- parsing --------------------------------------------------------------

  function DropNewline(s: string): string {
    if s != "" && s[0] == '\n' then s[1..] else s
  }

  // Header text and body text of one entry.
  function ParseEntry(header: string, rawBody: string): Result<ParsedEntry, FormatError> {
    var fields := FieldsOf(SplitAt(header, '\n'));
    var body := Trim(DropNewline(rawBody));
    if !Complete(fields) || !("- " <= body) then Err(MissingFields)
    else Ok(ParsedEntry(fields, Trim(body[2..])))
  }

  // The first entry of a text and the text after it, if there is one.
  function FirstEntry(text: string): (r: Result<Option<(ParsedEntry, string)>, FormatError>)
    ensures r.Ok? && r.value.Some? ==> |r.value.value.1| < |text|
  {
    var start := IndexFrom(text, ENTRY_START, 0);
    if start < 0 then Ok(None)
    else
      IndexFromFirst(text, ENTRY_START, 0);
      var afterStart := text[start + |ENTRY_START|..];
      var metaEnd := IndexFrom(afterStart, META_END, 0);
      if metaEnd < 0 then Err(MetadataNotClosed)
      else
        IndexFromFirst(afterStart, META_END, 0);
        var afterMeta := afterStart[metaEnd + |META_END|..];
        var close := IndexFrom(afterMeta, ENTRY_END, 0);
        if close < 0 then Err(BodyNotClosed)
        else
          IndexFromFirst(afterMeta, ENTRY_END, 0);
          var entry := ParseEntry(afterStart[..metaEnd], afterMeta[..close]);
          if entry.Err? then Err(entry.error)
          else Ok(Some((entry.value, DropNewline(afterMeta[close + |ENTRY_END|..]))))
  }

  // The entries of a text, from left to right.
  function ParseEntries(text: string): Result<seq<ParsedEntry>, FormatError>
    decreases |text|
  {
    var first := FirstEntry(text);
    if first.Err? then Err(first.error)
    else if first.value.None? then Ok([])
    else
      var rest := ParseEntries(first.value.value.1);
      if rest.Err? then rest else Ok([first.value.value.0] + rest.value)
  }

  // --- rendering ------------------------------------------------------------

  function RenderField(f: Field): string {
    f.key + ": " + f.value
  }

  function HeaderLines(header: seq<Field>): (lines: seq<string>)
    ensures |lines| == |header| && forall i :: 0 <= i < |header| ==> lines[i] == RenderField(header[i])
  {
    seq(|header|, i requires 0 <= i < |header| => RenderField(header[i]))
  }

  function RenderEntry(e: TextEntry): string {
    Join([ENTRY_START] + HeaderLines(e.header) + [META_END, "- " + e.content, ENTRY_END, ""], '\n')
  }

  function RenderAll(entries: seq<TextEntry>): string {
    if entries == [] then "" else RenderAll(entries[..|entries| - 1]) + RenderEntry(entries[|entries| - 1])
  }

  function ValueOf(header: seq<Field>, key: string): Option<string> {
    if header == [] then None
    else if header[|header| - 1].key == key then Some(header[|header| - 1].value)
    else ValueOf(header[..|header| - 1], key)
  }

  function OfTier(entries: seq<TextEntry>, tier: string): seq<TextEntry> {
    if entries == [] then []
    else
      var last := entries[|entries| - 1];
      OfTier(entries[..|entries| - 1], tier) + (if ValueOf(last.header, "tier") == Some(tier) then [last] else [])
  }

  // Stable entries and then recent ones, each in the order they had.
  function Filed(entries: seq<TextEntry>): seq<TextEntry> {
    OfTier(entries, "stable") + OfTier(entries, "recent")
  }

  function Section(text: string): seq<string> {
    if text == "" then [] else [TrimEnd(text), ""]
  }

  function RenderManagedMemory(frontmatter: string, entries: seq<TextEntry>): string {
    var stable := RenderAll(OfTier(entries, "stable"));
    var recent := RenderAll(OfTier(entries, "recent"));
    var lines := [frontmatter, "", STABLE_TITLE, ""] + Section(stable) + [RECENT_TITLE, ""] + Section(recent);
    TrimEnd(Join(lines, '\n')) + "\n"
  }
}
