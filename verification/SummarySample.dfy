// A summary that the real format accepts within a small limit.
module SummarySample {
  import opened Prelude
  import opened Text
  import opened SectionText
  import opened SummaryText
  import opened SummaryRepair
  import opened SummaryDrift
  import opened CompactionFormat

  // Every section holds one letter.
  function Sample(): Summary {
    Summary(WithFirst(COMPACTION_FORMAT, "b"), None)
  }

  function SampleText(): string {
    Render(COMPACTION_FORMAT, Sample())
  }

  lemma SampleParses()
    ensures var f := COMPACTION_FORMAT;
      Parse(f, SampleText(), false) == Ok(Sample()) && Trim(SampleText()) == SampleText() != ""
  {
    var f, bodies := COMPACTION_FORMAT, WithFirst(COMPACTION_FORMAT, "b");
    var text := RenderSections(f.headings, bodies);
    CompactionFormatUsable();
    OneLine("b", "b");
    NoMarkerWithin(f, bodies);
    IndexFromFirst(text, OpenMarker(f), 0);
    SectionsReadAs(f.headings, bodies, bodies);
    ParsedWellShaped(f, text, false);
    RenderTrimmed(f, Sample());
  }

  lemma {:induction false} BytesBounded(s: string)
    ensures ByteLength(s) <= 4 * |s|
  {
    if s != "" { BytesBounded(s[..|s| - 1]); }
  }

  lemma {:induction false} JoinBounded(parts: seq<string>)
    requires forall k :: 0 <= k < |parts| ==> |parts[k]| < 40
    ensures |Join(parts, '\n')| <= 40 * |parts|
  {
    if |parts| > 1 { JoinBounded(parts[1..]); }
  }

  lemma SampleShort()
    ensures EstimateTokens(SampleText()) <= 280
  {
    var bodies := WithFirst(COMPACTION_FORMAT, "b");
    CompactionFormatOk();
    forall k | 0 <= k < |HEADINGS| ensures |Titled(HEADINGS, bodies)[k]| < 40 { assert |HEADINGS[k]| < 30; }
    JoinBounded(Titled(HEADINGS, bodies));
    BytesBounded(SampleText());
  }

  lemma ShortValidates(f: Format, text: string, maxTokens: int)
    requires Trim(text) == text != "" && Parse(f, text, false).Ok?
    requires LimitOk(maxTokens) && EstimateTokens(text) <= maxTokens
    ensures Validate(f, text, maxTokens, false).Ok?
  {
  }

  lemma SampleValidates(maxTokens: int)
    requires 280 <= maxTokens <= MAX_SAFE_INTEGER
    ensures Validate(COMPACTION_FORMAT, SampleText(), maxTokens, false).Ok?
  {
    SampleParses();
    SampleShort();
    ShortValidates(COMPACTION_FORMAT, SampleText(), maxTokens);
  }
}
