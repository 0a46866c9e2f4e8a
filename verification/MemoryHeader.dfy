// The header of a memory entry: how its fields are written, one line each, and what
// is read back from a header that the parser may have cut.
module MemoryHeader {
  import opened Prelude
  import opened Text
  import opened MemoryMarkdown
  import opened MemoryRoundTrip
  import MemoryEntries

  // How single values are written and read: JSON lists, comma lists, what counts as
  // a time stamp and as one of the known kinds.
  datatype Syntax = Syntax(
    list: seq<string> -> string,
    readList: string -> Option<seq<string>>,
    rows: seq<nat> -> string,
    readRows: string -> seq<nat>,
    ids: seq<string> -> string,
    readIds: string -> seq<string>,
    isTimestamp: string -> bool,
    isEvidenceKind: string -> bool,
    isMemoryKind: string -> bool)

  function TierText(tier: MemoryEntries.Tier): string {
    match tier
    case Stable => "stable"
    case Recent => "recent"
  }

  function StatusText(status: MemoryEntries.Status): string {
    match status
    case Active => "active"
    case Disputed => "disputed"
    case Superseded => "superseded"
  }

  function NonEmpty(text: Option<string>): Option<string> {
    if text == Some("") then None else text
  }

  const KEYS: seq<string> := [
    "id", "createdAt", "updatedAt", "tier", "status", "aliases", "validUntil", "supersedes",
    "sourceMessageRowIds", "assertedByIds", "evidenceKind", "memoryKind"
  ]

  function ValuesOf(x: Syntax, e: MemoryEntries.Entry): (values: seq<Option<string>>)
    ensures |values| == |KEYS|
  {
    [ Some(e.id),
      Some(e.createdAt),
      Some(e.updatedAt),
      Some(TierText(e.tier)),
      Some(StatusText(e.status)),
      Some(x.list(e.aliases)),
      NonEmpty(e.validUntil),
      Some(x.list(e.supersedes)),
      if e.sourceMessageRowIds == [] then None else Some(x.rows(e.sourceMessageRowIds)),
      if e.assertedByIds == [] then None else Some(x.ids(e.assertedByIds)),
      NonEmpty(e.evidenceKind),
      NonEmpty(e.memoryKind) ]
  }

  // The lines that have a value, in order.
  function HeaderFrom(keys: seq<string>, values: seq<Option<string>>): seq<Field>
    requires |keys| == |values|
  {
    if keys == [] then []
    else
      var n := |keys| - 1;
      HeaderFrom(keys[..n], values[..n]) + (if values[n].Some? then [Field(keys[n], values[n].value)] else [])
  }

  function TextOf(x: Syntax, e: MemoryEntries.Entry): TextEntry {
    TextEntry(HeaderFrom(KEYS, ValuesOf(x, e)), e.content)
  }

  // --- reading it back ------------------------------------------------------

  function Look(fields: map<string, string>, key: string): Option<string> {
    if key in fields then Some(fields[key]) else None
  }

  function ListOf(x: Syntax, raw: Option<string>): Option<seq<string>> {
    if raw.None? then Some([]) else x.readList(raw.value)
  }

  function Known(text: Option<string>, known: string -> bool): Option<string> {
    if text.Some? && known(text.value) then text else None
  }

  function StatusFrom(text: Option<string>): MemoryEntries.Status {
    if text == Some("disputed") then MemoryEntries.Disputed
    else if text == Some("superseded") then MemoryEntries.Superseded
    else MemoryEntries.Active
  }

  function EntryFrom(x: Syntax, p: ParsedEntry): Result<MemoryEntries.Entry, FormatError> {
    var f := p.fields;
    var aliases, supersedes := ListOf(x, Look(f, "aliases")), ListOf(x, Look(f, "supersedes"));
    if aliases.None? || supersedes.None? then Err(BadList)
    else if !Complete(f) then Err(MissingFields)
    else
      var updatedAt := if "updatedAt" in f then f["updatedAt"] else f["createdAt"];
      var validUntil := Look(f, "validUntil");
      if !x.isTimestamp(f["createdAt"]) || !x.isTimestamp(updatedAt) then Err(BadTimestamp)
      else if validUntil.Some? && !x.isTimestamp(validUntil.value) then Err(BadTimestamp)
      else if f["id"] in supersedes.value then Err(SupersedesItself)
      else
        Ok(MemoryEntries.Entry(
             f["id"], f["createdAt"], updatedAt, p.content,
             if "sourceMessageRowIds" in f then x.readRows(f["sourceMessageRowIds"]) else [],
             if "assertedByIds" in f then x.readIds(f["assertedByIds"]) else [],
             Known(Look(f, "evidenceKind"), x.isEvidenceKind),
             Known(Look(f, "memoryKind"), x.isMemoryKind),
             if f["tier"] == "stable" then MemoryEntries.Stable else MemoryEntries.Recent,
             StatusFrom(Look(f, "status")),
             aliases.value, validUntil, supersedes.value))
  }

  // --- entries whose values can be written ----------------------------------

  predicate ValueOk(value: string) {
    value != "" && StartsSolid(value) && EndsSolid(value) && '\n' !in value
  }

  // Every value is one trimmed line and its syntax gives it back; content is trimmed.
  ghost predicate Writable(x: Syntax, e: MemoryEntries.Entry) {
    && (forall k :: 0 <= k < |KEYS| && ValuesOf(x, e)[k].Some? ==> ValueOk(ValuesOf(x, e)[k].value))
    && StartsSolid(e.content) && EndsSolid(e.content)
    && x.isTimestamp(e.createdAt) && x.isTimestamp(e.updatedAt)
    && (e.validUntil.Some? ==> e.validUntil != Some("") && x.isTimestamp(e.validUntil.value))
    && x.readList(x.list(e.aliases)) == Some(e.aliases) && x.readList(x.list(e.supersedes)) == Some(e.supersedes)
    && (e.sourceMessageRowIds != [] ==> x.readRows(x.rows(e.sourceMessageRowIds)) == e.sourceMessageRowIds)
    && (e.assertedByIds != [] ==> x.readIds(x.ids(e.assertedByIds)) == e.assertedByIds)
    && (e.evidenceKind.Some? ==> e.evidenceKind != Some("") && x.isEvidenceKind(e.evidenceKind.value))
    && (e.memoryKind.Some? ==> e.memoryKind != Some("") && x.isMemoryKind(e.memoryKind.value))
    && e.id !in e.supersedes
  }

  // A value that stays on one line for the parser and does not close the header.
  ghost predicate Plain(value: string) {
    !HasBreak(value) && !Occurs(value, META_END)
  }

  ghost predicate AllPlain(values: seq<Option<string>>) {
    forall k :: 0 <= k < |values| && values[k].Some? ==> Plain(values[k].value)
  }

  ghost predicate HeaderPlain(x: Syntax, e: MemoryEntries.Entry) {
    AllPlain(ValuesOf(x, e))
  }

  // What holds of the syntax of single values: time stamps, row numbers, the known
  // kinds and the empty list are plain, and a list cut off before the marker does
  // not read as the whole list.
  ghost predicate Lawful(x: Syntax) {
    && (forall s :: x.isTimestamp(s) || x.isEvidenceKind(s) || x.isMemoryKind(s) ==> Plain(s))
    && (forall rows :: Plain(x.rows(rows)))
    && Plain(x.list([]))
    && (forall list, before, after ::
          x.list(list) == Around(before, after) ==> x.readList(TrimEnd(before)) != Some(list))
    && (forall ids, before, after :: x.ids(ids) == Around(before, after) ==> x.readIds(TrimEnd(before)) != ids)
  }

  // A text with the marker in it.
  function Around(before: string, after: string): string {
    before + META_END + after
  }

  lemma {:induction false} HeaderLook(keys: seq<string>, values: seq<Option<string>>, k: nat)
    requires |keys| == |values| && k < |keys| && Distinct(keys)
    ensures Look(TableOf(HeaderFrom(keys, values)), keys[k]) == values[k]
    ensures ValueOf(HeaderFrom(keys, values), keys[k]) == values[k]
  {
    var n := |keys| - 1;
    var front := HeaderFrom(keys[..n], values[..n]);
    if values[n].Some? {
      TableSnoc(front, Field(keys[n], values[n].value));
      assert (front + [Field(keys[n], values[n].value)])[..|front|] == front;
    } else {
      assert HeaderFrom(keys, values) == front;
    }
    if k < n {
      HeaderLook(keys[..n], values[..n], k);
    } else if values[n].None? {
      NotThere(keys[..n], values[..n], keys[n]);
    }
  }

  lemma {:induction false} NotThere(keys: seq<string>, values: seq<Option<string>>, key: string)
    requires |keys| == |values| && key !in keys
    ensures Look(TableOf(HeaderFrom(keys, values)), key) == None && ValueOf(HeaderFrom(keys, values), key) == None
  {
    if keys != [] {
      var n := |keys| - 1;
      var front := HeaderFrom(keys[..n], values[..n]);
      NotThere(keys[..n], values[..n], key);
      if values[n].Some? {
        TableSnoc(front, Field(keys[n], values[n].value));
        assert (front + [Field(keys[n], values[n].value)])[..|front|] == front;
      } else {
        assert HeaderFrom(keys, values) == front;
      }
    }
  }

  lemma KeyShape(k: nat)
    requires k < |KEYS|
    ensures KeyOk(KEYS[k])
    ensures |KEYS[k]| == [2, 9, 9, 4, 6, 7, 10, 10, 19, 13, 12, 10][k]
    ensures KEYS[k][0] == ['i', 'c', 'u', 't', 's', 'a', 'v', 's', 's', 'a', 'e', 'm'][k]
  {
  }

  lemma KeysOk()
    ensures Distinct(KEYS) && forall k :: 0 <= k < |KEYS| ==> KeyOk(KEYS[k])
  {
    var lengths := [2, 9, 9, 4, 6, 7, 10, 10, 19, 13, 12, 10];
    var initials := ['i', 'c', 'u', 't', 's', 'a', 'v', 's', 's', 'a', 'e', 'm'];
    forall k | 0 <= k < |KEYS|
      ensures KeyOk(KEYS[k]) && |KEYS[k]| == lengths[k] && KEYS[k][0] == initials[k]
    {
      KeyShape(k);
    }
    forall i, j | 0 <= i < j < |KEYS| ensures KEYS[i] != KEYS[j] {
      assert lengths[i] != lengths[j] || initials[i] != initials[j];
    }
  }

  // Every key reads as the value that was written under it.
  ghost predicate Reads(x: Syntax, e: MemoryEntries.Entry, f: map<string, string>) {
    forall k :: 0 <= k < |KEYS| ==> Look(f, KEYS[k]) == ValuesOf(x, e)[k]
  }

  lemma ReadsFields(x: Syntax, e: MemoryEntries.Entry, f: map<string, string>)
    requires Reads(x, e, f)
    ensures Look(f, "id") == Some(e.id) && Look(f, "createdAt") == Some(e.createdAt)
    ensures Look(f, "updatedAt") == Some(e.updatedAt)
    ensures Look(f, "tier") == Some(TierText(e.tier)) && Look(f, "status") == Some(StatusText(e.status))
    ensures Look(f, "aliases") == Some(x.list(e.aliases)) && Look(f, "supersedes") == Some(x.list(e.supersedes))
    ensures Look(f, "validUntil") == NonEmpty(e.validUntil)
  {
    assert Look(f, KEYS[0]) == ValuesOf(x, e)[0] && Look(f, KEYS[1]) == ValuesOf(x, e)[1];
    assert Look(f, KEYS[2]) == ValuesOf(x, e)[2] && Look(f, KEYS[3]) == ValuesOf(x, e)[3];
    assert Look(f, KEYS[4]) == ValuesOf(x, e)[4] && Look(f, KEYS[5]) == ValuesOf(x, e)[5];
    assert Look(f, KEYS[6]) == ValuesOf(x, e)[6] && Look(f, KEYS[7]) == ValuesOf(x, e)[7];
  }

  lemma ReadsSources(x: Syntax, e: MemoryEntries.Entry, f: map<string, string>)
    requires Reads(x, e, f)
    ensures Look(f, "sourceMessageRowIds")
         == if e.sourceMessageRowIds == [] then None else Some(x.rows(e.sourceMessageRowIds))
    ensures Look(f, "assertedByIds") == if e.assertedByIds == [] then None else Some(x.ids(e.assertedByIds))
    ensures Look(f, "evidenceKind") == NonEmpty(e.evidenceKind) && Look(f, "memoryKind") == NonEmpty(e.memoryKind)
  {
    assert Look(f, KEYS[8]) == ValuesOf(x, e)[8] && Look(f, KEYS[9]) == ValuesOf(x, e)[9];
    assert Look(f, KEYS[10]) == ValuesOf(x, e)[10] && Look(f, KEYS[11]) == ValuesOf(x, e)[11];
  }

  lemma EntryBack(x: Syntax, e: MemoryEntries.Entry, f: map<string, string>)
    requires Writable(x, e) && Reads(x, e, f)
    ensures Complete(f) && EntryFrom(x, ParsedEntry(f, e.content)) == Ok(e)
  {
    ReadsFields(x, e, f);
    ReadsSources(x, e, f);
    StatusBack(e.status);
  }

  lemma StatusBack(status: MemoryEntries.Status)
    ensures StatusFrom(Some(StatusText(status))) == status
  {
  }

  // --- a plain header -------------------------------------------------------

  lemma MarkerInValue(key: string, value: string)
    requires KeyOk(key)
    ensures Occurs(key + ": " + value, META_END) <==> Occurs(value, META_END)
  {
    if Occurs(value, META_END) {
      OccursWithin(key + ": ", value, "", META_END);
      assert key + ": " + value + "" == key + ": " + value;
    }
    if Occurs(key + ": " + value, META_END) {
      assert key + ": " + value == (key + ":") + [' '] + value;
      OccursAround(key + ":", ' ', value, META_END);
      if Occurs(key + ":", META_END) { NoMarkerIn(key + ":", META_END); }
    }
  }

  lemma {:induction false} HeaderFields(keys: seq<string>, values: seq<Option<string>>)
    requires |keys| == |values| && (forall k :: 0 <= k < |keys| ==> KeyOk(keys[k])) && AllPlain(values)
    requires forall k :: 0 <= k < |keys| && values[k].Some? ==> ValueOk(values[k].value)
    ensures forall i :: 0 <= i < |HeaderFrom(keys, values)| ==> FieldOk(HeaderFrom(keys, values)[i])
  {
    if keys != [] {
      var n := |keys| - 1;
      HeaderFields(keys[..n], values[..n]);
      if values[n].Some? { MarkerInValue(keys[n], values[n].value); }
    }
  }

  lemma TextFramed(x: Syntax, e: MemoryEntries.Entry)
    requires Writable(x, e) && HeaderPlain(x, e) && e.content != ""
    ensures Framed(TextOf(x, e)) && EntryFrom(x, ParsedOf(TextOf(x, e))) == Ok(e)
  {
    var header := HeaderFrom(KEYS, ValuesOf(x, e));
    KeysOk();
    HeaderFields(KEYS, ValuesOf(x, e));
    forall k | 0 <= k < |KEYS| ensures Look(TableOf(header), KEYS[k]) == ValuesOf(x, e)[k] {
      HeaderLook(KEYS, ValuesOf(x, e), k);
    }
    EntryBack(x, e, TableOf(header));
  }

  lemma TextTier(x: Syntax, e: MemoryEntries.Entry)
    ensures ValueOf(TextOf(x, e).header, "tier") == Some(TierText(e.tier))
  {
    KeysOk();
    HeaderLook(KEYS, ValuesOf(x, e), 3);
    assert KEYS[3] == "tier";
  }

  // --- a header that is not plain -------------------------------------------

  // The values that the parser sees: a value with a line separator is not matched.
  function Visible(values: seq<Option<string>>): (seen: seq<Option<string>>)
    ensures |seen| == |values|
    ensures forall k :: 0 <= k < |values| ==>
      seen[k] == if values[k].Some? && HasBreak(values[k].value) then None else values[k]
  {
    seq(|values|, k requires 0 <= k < |values| =>
      if values[k].Some? && HasBreak(values[k].value) then None else values[k])
  }

  // What a line with this key and value is matched as.
  function MatchOf(key: string, value: string): Option<Field> {
    var seen := TrimEnd(value);
    if seen == "" || HasBreak(seen) then None else Some(Field(key, seen))
  }

  lemma MatchBlank(key: string, line: string)
    requires KeyOk(key) && line == key + ":"
    ensures MatchField(line) == None
  {
    KeyLengthIs(key, ":");
  }

  lemma MatchSolid(key: string, value: string)
    requires KeyOk(key) && value != "" && StartsSolid(value)
    ensures MatchField(key + ": " + value) == if HasBreak(value) then None else Some(Field(key, value))
  {
    var line, rest := key + ": " + value, ": " + value;
    assert line == key + rest;
    KeyLengthIs(key, rest);
    LetterSolid(key[0]);
    assert line[|key| + 1..] == " " + value && (" " + value)[1..] == value;
    assert TrimStart(" " + value) == TrimStart(value) == value;
    assert line[..|key|] == key;
  }

  lemma {:induction false} TrimEndAfter(front: string, s: string)
    requires !Blank(s)
    ensures TrimEnd(front + s) == front + TrimEnd(s)
  {
    if IsSpace(s[|s| - 1]) {
      assert (front + s)[..|front + s| - 1] == front + s[..|s| - 1];
      if Blank(s[..|s| - 1]) {
        forall i | 0 <= i < |s| ensures IsSpace(s[i]) { if i < |s| - 1 { assert s[..|s| - 1][i] == s[i]; } }
      }
      TrimEndAfter(front, s[..|s| - 1]);
    }
  }

  lemma TrimmedLine(key: string, value: string)
    requires KeyOk(key) && StartsSolid(value)
    ensures Trim(key + ": " + value) == if TrimEnd(value) == "" then key + ":" else key + ": " + TrimEnd(value)
  {
    LetterSolid(key[0]);
    TrimEndIsPrefix(value);
    if value == "" {
      var line := key + ": " + value;
      assert line[..|line| - 1] == key + ":" && TrimEnd(key + ":") == key + ":";
      assert TrimEnd(line) == key + ":";
    } else {
      assert !Blank(value) by { assert !IsSpace(value[0]); }
      TrimEndAfter(key + ": ", value);
    }
  }

  lemma LineMatches(key: string, value: string)
    requires KeyOk(key) && StartsSolid(value)
    ensures MatchField(Trim(key + ": " + value)) == MatchOf(key, value)
  {
    TrimmedLine(key, value);
    TrimEndIsPrefix(value);
    if TrimEnd(value) == "" {
      MatchBlank(key, key + ":");
    } else {
      assert TrimEnd(value)[0] == value[0];
      MatchSolid(key, TrimEnd(value));
    }
  }

  lemma LineBreaks(key: string, value: string)
    requires KeyOk(key) && '\n' !in value
    ensures '\n' !in key + ": " + value
  {
    var line := key + ": " + value;
    forall i | 0 <= i < |line| ensures line[i] != '\n' {
      if i < |key| { assert line[i] == key[i] && IsKeyChar(key[i]); }
      if i >= |key| + 2 { assert line[i] == value[i - |key| - 2]; }
    }
  }

  ghost predicate LinesOk(keys: seq<string>, values: seq<Option<string>>) {
    && |keys| == |values|
    && forall k :: 0 <= k < |keys| ==> KeyOk(keys[k]) && (values[k].Some? ==> ValueOk(values[k].value))
  }

  lemma HeaderFromSnoc(keys: seq<string>, values: seq<Option<string>>, key: string, value: Option<string>)
    requires |keys| == |values|
    ensures HeaderFrom(keys + [key], values + [value])
         == HeaderFrom(keys, values) + (if value.Some? then [Field(key, value.value)] else [])
  {
    assert (keys + [key])[..|keys|] == keys && (values + [value])[..|values|] == values;
  }

  lemma {:induction false} OneLinedFrom(keys: seq<string>, values: seq<Option<string>>)
    requires LinesOk(keys, values)
    ensures OneLined(HeaderFrom(keys, values))
  {
    if keys != [] {
      var n := |keys| - 1;
      OneLinedFrom(keys[..n], values[..n]);
      if values[n].Some? { LineBreaks(keys[n], values[n].value); }
    }
  }

  // One more line, and what has been seen with it.
  lemma SeenNext(header: seq<Field>, seen: seq<Field>, f: Field)
    requires FieldsOf([""] + HeaderLines(header)) == TableOf(seen) && KeyOk(f.key) && ValueOk(f.value)
    ensures FieldsOf([""] + HeaderLines(header + [f])) == TableOf(if HasBreak(f.value) then seen else seen + [f])
  {
    LinesSnoc(header, f);
    FieldsSnoc([""] + HeaderLines(header), RenderField(f));
    LineMatches(f.key, f.value);
    SolidEnd(f.value);
    TableSnoc(seen, f);
  }

  lemma VisibleSnoc(values: seq<Option<string>>, value: Option<string>)
    ensures Visible(values + [value])
         == Visible(values) + [if value.Some? && HasBreak(value.value) then None else value]
  {
  }

  lemma VisibleNext(keys: seq<string>, values: seq<Option<string>>, key: string, value: Option<string>)
    requires LinesOk(keys, values) && KeyOk(key) && (value.Some? ==> ValueOk(value.value))
    requires FieldsOf([""] + HeaderLines(HeaderFrom(keys, values))) == TableOf(HeaderFrom(keys, Visible(values)))
    ensures FieldsOf([""] + HeaderLines(HeaderFrom(keys + [key], values + [value])))
         == TableOf(HeaderFrom(keys + [key], Visible(values + [value])))
  {
    HeaderFromSnoc(keys, values, key, value);
    VisibleSnoc(values, value);
    HeaderFromSnoc(keys, Visible(values), key, if value.Some? && HasBreak(value.value) then None else value);
    var header, seen := HeaderFrom(keys, values), HeaderFrom(keys, Visible(values));
    assert header + [] == header && seen + [] == seen;
    if value.Some? { SeenNext(header, seen, Field(key, value.value)); }
  }

  // The lines of a header read as the values that the parser sees.
  lemma {:induction false} VisibleFields(keys: seq<string>, values: seq<Option<string>>)
    requires LinesOk(keys, values)
    ensures FieldsOf([""] + HeaderLines(HeaderFrom(keys, values))) == TableOf(HeaderFrom(keys, Visible(values)))
  {
    if keys == [] {
      NoFields();
    } else {
      var n := |keys| - 1;
      VisibleFields(keys[..n], values[..n]);
      VisibleNext(keys[..n], values[..n], keys[n], values[n]);
      assert keys == keys[..n] + [keys[n]] && values == values[..n] + [values[n]];
    }
  }

  lemma SolidEnd(s: string)
    requires EndsSolid(s)
    ensures TrimEnd(s) == s
  {
  }

  // The fields of a header that was cut inside its last line.
  function CutTable(keys: seq<string>, values: seq<Option<string>>, key: string, value: string): map<string, string>
    requires |keys| == |values|
  {
    var table, field := TableOf(HeaderFrom(keys, Visible(values))), MatchOf(key, value);
    if field.Some? then table[key := field.value.value] else table
  }

  lemma CutFields(keys: seq<string>, values: seq<Option<string>>, key: string, value: string)
    requires LinesOk(keys, values) && KeyOk(key) && StartsSolid(value) && '\n' !in value
    ensures FieldsOf(SplitAt(HeaderText(HeaderFrom(keys, values)) + (key + ": " + value), '\n'))
         == CutTable(keys, values, key, value)
  {
    var header, line := HeaderFrom(keys, values), key + ": " + value;
    OneLinedFrom(keys, values);
    HeaderTextSplits(header);
    HeaderEnds(header);
    LineBreaks(key, value);
    LastLine(HeaderText(header), [""] + HeaderLines(header), line);
    VisibleFields(keys, values);
    FieldsSnoc([""] + HeaderLines(header), line);
    LineMatches(key, value);
  }

  lemma LastLine(text: string, lines: seq<string>, line: string)
    requires text != "" && text[|text| - 1] == '\n' && SplitAt(text, '\n') == lines + [""] && '\n' !in line
    ensures SplitAt(text + line, '\n') == lines + [line]
  {
    var before := text[..|text| - 1];
    assert text == before + ['\n'] + "" && text + line == before + ['\n'] + line;
    SplitAcross(before, "", '\n');
    SplitAcross(before, line, '\n');
    SplitNone(line, '\n');
    SnocCancel(SplitAt(before, '\n'), lines, "");
  }

  // The fields of a header that was not cut.
  lemma WholeFields(keys: seq<string>, values: seq<Option<string>>)
    requires LinesOk(keys, values)
    ensures FieldsOf(SplitAt(HeaderText(HeaderFrom(keys, values)), '\n')) == TableOf(HeaderFrom(keys, Visible(values)))
  {
    var header := HeaderFrom(keys, values);
    OneLinedFrom(keys, values);
    HeaderTextSplits(header);
    VisibleFields(keys, values);
    FieldsSnoc([""] + HeaderLines(header), "");
    NoField();
  }

  // --- such a header is not read back ---------------------------------------

  // What is left of a value: nothing, or what stands before a marker in it.
  ghost predicate Stump(value: string, left: Option<string>) {
    left.Some? ==> exists before, after :: value == Around(before, after) && left.value == TrimEnd(before)
  }

  lemma StumpShorter(value: string, left: string)
    requires Stump(value, Some(left))
    ensures |left| < |value|
  {
    var before, after :| value == Around(before, after) && left == TrimEnd(before);
    TrimEndIsPrefix(before);
  }

  lemma StumpList(x: Syntax, list: seq<string>, left: Option<string>)
    requires Lawful(x) && !Plain(x.list(list)) && Stump(x.list(list), left)
    ensures ListOf(x, left) != Some(list)
  {
    if left.Some? {
      var before, after :| x.list(list) == Around(before, after) && left.value == TrimEnd(before);
    }
  }

  lemma StumpIds(x: Syntax, ids: seq<string>, left: string)
    requires Lawful(x) && Stump(x.ids(ids), Some(left))
    ensures x.readIds(left) != ids
  {
    var before, after :| x.ids(ids) == Around(before, after) && left == TrimEnd(before);
  }

  // Only ids and lists of text can fail to be plain.
  lemma WhereNotPlain(x: Syntax, e: MemoryEntries.Entry, k: nat)
    requires Lawful(x) && Writable(x, e) && k < |KEYS| && ValuesOf(x, e)[k].Some? && !Plain(ValuesOf(x, e)[k].value)
    ensures k in {0, 5, 7, 9}
  {
    TextsArePlain();
  }

  lemma TextsArePlain()
    ensures Plain("stable") && Plain("recent") && Plain("active") && Plain("disputed") && Plain("superseded")
  {
    NoMarkerIn("stable", META_END);
    NoMarkerIn("recent", META_END);
    NoMarkerIn("active", META_END);
    NoMarkerIn("disputed", META_END);
    NoMarkerIn("superseded", META_END);
  }

  lemma StumpDiffers(x: Syntax, e: MemoryEntries.Entry, f: map<string, string>, content: string, k: nat)
    requires Lawful(x) && Writable(x, e) && k < |KEYS| && ValuesOf(x, e)[k].Some? && !Plain(ValuesOf(x, e)[k].value)
    requires Stump(ValuesOf(x, e)[k].value, Look(f, KEYS[k]))
    ensures EntryFrom(x, ParsedEntry(f, content)) != Ok(e)
  {
    var left := Look(f, KEYS[k]);
    WhereNotPlain(x, e, k);
    if k == 0 {
      if left.Some? { StumpShorter(e.id, left.value); }
    } else if k == 5 {
      StumpList(x, e.aliases, left);
    } else if k == 7 {
      StumpList(x, e.supersedes, left);
    } else {
      assert k == 9;
      if left.Some? { StumpIds(x, e.assertedByIds, left.value); }
    }
  }
}
