// Validating a summary against its token limit, and shortening one that is too long.
module SummaryRepair {
  import opened Prelude
  import opened Text
  import opened SectionLayout
  import opened SectionText
  import opened SummaryText
  import opened BoundedLoop

  const REPAIR_ATTEMPTS := 256

  datatype Validated = Validated(summary: string, tokens: nat)

  function Utf8Length(c: char): nat {
    if c < '\U{80}' then 1 else if c < '\U{800}' then 2 else if c < '\U{10000}' then 3 else 4
  }

  function ByteLength(s: string): nat {
    if s == "" then 0 else ByteLength(s[..|s| - 1]) + Utf8Length(s[|s| - 1])
  }

  function EstimateTokens(value: string): nat {
    if value == "" then 0 else Max(1, (ByteLength(value) + 3) / 4)
  }

  predicate LimitOk(maxTokens: int) {
    0 < maxTokens <= MAX_SAFE_INTEGER
  }

  function Validate(f: Format, summary: string, maxTokens: int, isSplitTurn: bool): Result<Validated, SummaryError> {
    var normalized := Trim(summary);
    if normalized == "" then Err(Empty)
    else
      var parsed := Parse(f, normalized, isSplitTurn);
      if parsed.Err? then Err(parsed.error)
      else if !LimitOk(maxTokens) then Err(RangeError)
      else if EstimateTokens(normalized) > maxTokens then Err(TokenLimit)
      else Ok(Validated(normalized, EstimateTokens(normalized)))
  }

  // --- shrinking one text ---------------------------------------------------

  // The lengths n at which the floating-point product n * 0.7 falls just short of
  // the whole number it stands for.
  type Rounding = set<nat>

  // Math.max(1, Math.floor(n * 0.7)).
  function KeptLength(n: nat, rounding: Rounding): nat {
    Max(1, 7 * n / 10 - (if n in rounding then 1 else 0))
  }

  // The text without one trailing ellipsis.
  function Strip(value: string): string {
    if value != "" && value[|value| - 1] == ELLIPSIS then value[..|value| - 1] else value
  }

  function ShrinkText(value: string, rounding: Rounding): string {
    var characters := Strip(value);
    var shortened := TrimEnd(Clamp(characters, 0, KeptLength(|characters|, rounding)));
    if shortened == "" then "无。" else shortened + [ELLIPSIS]
  }

  // Non-empty and trimmed: what every section body and prefix is.
  predicate Solid(text: string) {
    text != "" && StartsSolid(text) && EndsSolid(text)
  }

  // A shrunk text is a strictly shorter beginning of the old one, with an ellipsis.
  lemma ShrinkStrict(value: string, rounding: Rounding)
    requires Solid(value) && |value| > 2
    ensures var r := ShrinkText(value, rounding);
      && Solid(r)
      && Strip(r) <= Strip(value)
      && 0 < |Strip(r)| < |Strip(value)|
      && r == Strip(r) + [ELLIPSIS]
      && EndsSolid(Strip(r))
  {
    var characters := Strip(value);
    var n := |characters|;
    var cut := characters[..KeptLength(n, rounding)];
    TrimEndIsPrefix(cut);
    assert !IsSpace(cut[0]);
    assert !IsSpace(ELLIPSIS);
    var shortened := TrimEnd(cut);
    assert shortened <= characters;
    assert (shortened + [ELLIPSIS])[..|shortened|] == shortened;
  }

  lemma StripIsPrefix(value: string)
    ensures Strip(value) <= value
  {
  }

  lemma AbbreviatedRightTrimmed(value: string, t: string)
    requires RightTrimmed(value) && t <= value && EndsSolid(t)
    ensures RightTrimmed(t + [ELLIPSIS])
  {
  }

  lemma AbbreviatedPlain(value: string, t: string)
    requires t <= value
    ensures Occurs(t + [ELLIPSIS], HEADING_BREAK) ==> Occurs(value, HEADING_BREAK)
    ensures Headed(t + [ELLIPSIS]) ==> Headed(value)
  {
    var r := t + [ELLIPSIS];
    if Occurs(r, HEADING_BREAK) {
      assert r == t + [ELLIPSIS] + "";
      OccursAround(t, ELLIPSIS, "", HEADING_BREAK);
      assert value == "" + t + value[|t|..];
      OccursWithin("", t, value[|t|..], HEADING_BREAK);
    }
    if Headed(r) {
      assert r[..3] == HEADING_MARK;
      assert r[2] == ' ';
      assert value[..3] == t[..3] == r[..3];
    }
  }

  lemma ShrinkCanonical(value: string, rounding: Rounding)
    requires Canonical(value) && |value| > 2
    ensures Canonical(ShrinkText(value, rounding))
    ensures Headed(ShrinkText(value, rounding)) ==> Headed(value)
  {
    ShrinkStrict(value, rounding);
    StripIsPrefix(value);
    var t := Strip(ShrinkText(value, rounding));
    AbbreviatedRightTrimmed(value, t);
    AbbreviatedPlain(value, t);
  }

  // --- the repair loop ------------------------------------------------------

  // The pieces that may be shortened, in the order that breaks ties.
  function Chunks(summary: Summary): seq<string> {
    (if summary.splitTurnPrefix.Some? then [summary.splitTurnPrefix.value] else []) + summary.bodies
  }

  function ReplaceChunk(summary: Summary, index: nat, text: string): Summary
    requires index < |Chunks(summary)|
  {
    if summary.splitTurnPrefix.None? then summary.(bodies := summary.bodies[index := text])
    else if index == 0 then summary.(splitTurnPrefix := Some(text))
    else summary.(bodies := summary.bodies[index - 1 := text])
  }

  // Among the first n chunks with more than two characters, the one with the
  // most bytes; the earliest on a tie.
  function Largest(chunks: seq<string>, n: nat): (best: Option<nat>)
    requires n <= |chunks|
    ensures best.Some? ==> best.value < n && |chunks[best.value]| > 2
  {
    if n == 0 then None
    else
      var best := Largest(chunks, n - 1);
      if |chunks[n - 1]| <= 2 then best
      else if best.Some? && ByteLength(chunks[best.value]) >= ByteLength(chunks[n - 1]) then best
      else Some(n - 1)
  }

  function Next(summary: Summary, target: nat, rounding: Rounding): Summary
    requires target < |Chunks(summary)|
  {
    ReplaceChunk(summary, target, ShrinkText(Chunks(summary)[target], rounding))
  }

  function Fits(f: Format, maxTokens: nat): Summary -> bool {
    (summary: Summary) => EstimateTokens(Render(f, summary)) <= maxTokens
  }

  // One round: shorten the largest piece that can still be shortened.
  function Round(rounding: Rounding): Summary -> Option<Summary> {
    (summary: Summary) =>
      var target := Largest(Chunks(summary), |Chunks(summary)|);
      if target.None? then None else Some(Next(summary, target.value, rounding))
  }

  function Repair(f: Format, summary: string, maxTokens: int, isSplitTurn: bool,
                  rounding: Rounding): Result<Option<string>, SummaryError> {
    if !LimitOk(maxTokens) then Err(RangeError)
    else
      var parsed := Parse(f, Trim(summary), isSplitTurn);
      if parsed.Err? then Ok(None)
      else
        var repaired := Improve(parsed.value, Fits(f, maxTokens), Round(rounding), REPAIR_ATTEMPTS);
        if repaired.None? then Ok(None) else Ok(Some(Render(f, repaired.value)))
  }

  lemma {:induction false} LargestFound(chunks: seq<string>, n: nat)
    requires n <= |chunks|
    ensures match Largest(chunks, n)
      case None => forall j :: 0 <= j < n ==> |chunks[j]| <= 2
      case Some(best) =>
        && best < n && |chunks[best]| > 2
        && (forall j :: 0 <= j < n && |chunks[j]| > 2 ==> ByteLength(chunks[j]) <= ByteLength(chunks[best]))
        && (forall j :: 0 <= j < best && |chunks[j]| > 2 ==> ByteLength(chunks[j]) < ByteLength(chunks[best]))
  {
    if n > 0 { LargestFound(chunks, n - 1); }
  }

  method FindLargest(chunks: seq<string>) returns (target: Option<nat>)
    ensures target == Largest(chunks, |chunks|)
  {
    target := None;
    for n := 0 to |chunks|
      invariant target == Largest(chunks, n)
      invariant target.Some? ==> target.value < n
    {
      if |chunks[n]| > 2 && (target.None? || ByteLength(chunks[target.value]) < ByteLength(chunks[n])) {
        target := Some(n);
      }
    }
  }

  method RepairLoop(f: Format, parsed: Summary, maxTokens: nat, rounding: Rounding) returns (r: Option<string>)
    ensures var repaired := Improve(parsed, Fits(f, maxTokens), Round(rounding), REPAIR_ATTEMPTS);
      r == if repaired.None? then None else Some(Render(f, repaired.value))
  {
    var current := parsed;
    for attempt := 0 to REPAIR_ATTEMPTS
      invariant Improve(parsed, Fits(f, maxTokens), Round(rounding), REPAIR_ATTEMPTS)
             == Improve(current, Fits(f, maxTokens), Round(rounding), REPAIR_ATTEMPTS - attempt)
    {
      var candidate := Render(f, current);
      if EstimateTokens(candidate) <= maxTokens { return Some(candidate); }
      var chunks := Chunks(current);
      var target := FindLargest(chunks);
      if target.None? { return None; }
      current := Next(current, target.value, rounding);
    }
    return None;
  }

  method RepairOversizedCompactionSummary(f: Format, summary: string, maxTokens: int, isSplitTurn: bool,
                                          rounding: Rounding)
    returns (r: Result<Option<string>, SummaryError>)
    ensures r == Repair(f, summary, maxTokens, isSplitTurn, rounding)
  {
    if !LimitOk(maxTokens) { return Err(RangeError); }
    var parsed := Parse(f, Trim(summary), isSplitTurn);
    if parsed.Err? { return Ok(None); }
    var repaired := RepairLoop(f, parsed.value, maxTokens, rounding);
    return Ok(repaired);
  }

  // --- what repairing keeps -------------------------------------------------

  ghost predicate ShortenedFrom(now: string, before: string) {
    Strip(now) <= Strip(before)
  }

  // Same sections, each an abbreviation of what it was.
  ghost predicate Shortened(now: Summary, before: Summary) {
    && |Chunks(now)| == |Chunks(before)|
    && (now.splitTurnPrefix.Some? <==> before.splitTurnPrefix.Some?)
    && forall j :: 0 <= j < |Chunks(now)| ==> ShortenedFrom(Chunks(now)[j], Chunks(before)[j])
  }

  lemma ShortenedTransitive(a: Summary, b: Summary, c: Summary)
    requires Shortened(a, b) && Shortened(b, c)
    ensures Shortened(a, c)
  {
  }

  lemma ChunkSolid(f: Format, summary: Summary, index: nat)
    requires WellShaped(f, summary) && index < |Chunks(summary)|
    ensures Solid(Chunks(summary)[index])
  {
  }

  lemma ReplacedChunks(summary: Summary, index: nat, text: string)
    requires index < |Chunks(summary)|
    ensures Chunks(ReplaceChunk(summary, index, text)) == Chunks(summary)[index := text]
  {
  }

  lemma ReplacedShaped(f: Format, summary: Summary, index: nat, text: string)
    requires WellShaped(f, summary) && index < |Chunks(summary)|
    requires Solid(text) && (Canonical(Chunks(summary)[index]) ==> Canonical(text))
    ensures WellShaped(f, ReplaceChunk(summary, index, text))
  {
  }

  lemma ReplacedShortened(summary: Summary, index: nat, text: string)
    requires index < |Chunks(summary)| && Strip(text) <= Strip(Chunks(summary)[index])
    ensures Shortened(ReplaceChunk(summary, index, text), summary)
  {
  }

  lemma ReplacedPlain(summary: Summary, index: nat, text: string)
    requires index < |Chunks(summary)| && (Headed(text) ==> Headed(Chunks(summary)[index]))
    requires NoneHeaded(summary.bodies)
    ensures NoneHeaded(ReplaceChunk(summary, index, text).bodies)
  {
  }

  lemma ReplaceStep(f: Format, summary: Summary, index: nat, rounding: Rounding)
    requires WellShaped(f, summary) && index < |Chunks(summary)| && |Chunks(summary)[index]| > 2
    ensures var next := Next(summary, index, rounding);
      && WellShaped(f, next) && Shortened(next, summary)
      && (NoneHeaded(summary.bodies) ==> NoneHeaded(next.bodies))
  {
    var chunk := Chunks(summary)[index];
    ChunkSolid(f, summary, index);
    ShrinkStrict(chunk, rounding);
    StripIsPrefix(chunk);
    AbbreviatedPlain(chunk, Strip(ShrinkText(chunk, rounding)));
    if Canonical(chunk) { ShrinkCanonical(chunk, rounding); }
    ReplacedShaped(f, summary, index, ShrinkText(chunk, rounding));
    ReplacedShortened(summary, index, ShrinkText(chunk, rounding));
    if NoneHeaded(summary.bodies) { ReplacedPlain(summary, index, ShrinkText(chunk, rounding)); }
  }

  // The abbreviated text between what stands before and after it.
  lemma NoNewOccurrence(before: string, body: string, after: string, kept: string, t: string)
    requires kept <= body && ELLIPSIS !in t
    requires Occurs(before + (kept + [ELLIPSIS]) + after, t)
    ensures Occurs(before + body + after, t)
  {
    var a := before + kept;
    var lost := body[|kept|..];
    assert body == kept + lost;
    assert before + (kept + [ELLIPSIS]) + after == a + [ELLIPSIS] + after;
    OccursAround(a, ELLIPSIS, after, t);
    if Occurs(a, t) {
      assert before + body + after == "" + a + (lost + after);
      OccursWithin("", a, lost + after, t);
    } else {
      assert before + body + after == (a + lost) + after + "";
      OccursWithin(a + lost, after, "", t);
    }
  }

  lemma HostRegrouped(front: string, title: string, body: string, back: string, more: string)
    ensures (front + (title + body) + back) + more == (front + title) + body + (back + more)
  {
  }

  lemma HostAround(f: Format, summary: Summary, k: nat, text: string) returns (before: string, after: string)
    requires |summary.bodies| == |f.headings| && k < |summary.bodies|
    ensures MarkerHost(f, summary) == before + summary.bodies[k] + after
    ensures MarkerHost(f, summary.(bodies := summary.bodies[k := text])) == before + text + after
  {
    var title := f.headings[k] + ['\n'];
    var more := if summary.splitTurnPrefix.Some? then "\n" else "";
    var front, back := JoinAround(Titled(f.headings, summary.bodies), k, title + text, '\n');
    TitledChanged(f.headings, summary.bodies, k, text);
    HostRegrouped(front, title, summary.bodies[k], back, more);
    HostRegrouped(front, title, text, back, more);
    before, after := front + title, back + more;
  }

  lemma TitledChanged(headings: seq<string>, bodies: seq<string>, k: nat, text: string)
    requires k < |bodies| == |headings|
    ensures Titled(headings, bodies)[k] == (headings[k] + ['\n']) + bodies[k]
    ensures Titled(headings, bodies[k := text]) == Titled(headings, bodies)[k := (headings[k] + ['\n']) + text]
  {
  }

  // Shortening never forms a marker that was not there.
  lemma NoNewMarker(f: Format, summary: Summary, k: nat, kept: string)
    requires FormatOk(f) && |summary.bodies| == |f.headings| && k < |summary.bodies|
    requires kept <= summary.bodies[k]
    requires Occurs(MarkerHost(f, summary.(bodies := summary.bodies[k := kept + [ELLIPSIS]])), OpenMarker(f))
    ensures Occurs(MarkerHost(f, summary), OpenMarker(f))
  {
    OpenMarkerShape(f);
    var before, after := HostAround(f, summary, k, kept + [ELLIPSIS]);
    NoNewOccurrence(before, summary.bodies[k], after, kept, OpenMarker(f));
  }

  lemma ShrinkAbbreviates(value: string, rounding: Rounding) returns (kept: string)
    requires Solid(value) && |value| > 2
    ensures ShrinkText(value, rounding) == kept + [ELLIPSIS] && kept <= value
  {
    ShrinkStrict(value, rounding);
    StripIsPrefix(value);
    kept := Strip(ShrinkText(value, rounding));
  }

  // Where the marker is looked for: untouched by a new prefix, one body changed otherwise.
  lemma HostOfNext(f: Format, summary: Summary, index: nat, text: string)
    requires |summary.bodies| == |f.headings| && index < |Chunks(summary)|
    ensures var next := ReplaceChunk(summary, index, text);
      if summary.splitTurnPrefix.Some? && index == 0 then MarkerHost(f, next) == MarkerHost(f, summary)
      else
        var k := if summary.splitTurnPrefix.None? then index else index - 1;
        k < |summary.bodies| && Chunks(summary)[index] == summary.bodies[k]
        && next == summary.(bodies := summary.bodies[k := text])
  {
  }

  lemma StaysUnmarked(f: Format, summary: Summary, index: nat, rounding: Rounding)
    requires FormatOk(f) && WellShaped(f, summary) && index < |Chunks(summary)| && |Chunks(summary)[index]| > 2
    requires Occurs(MarkerHost(f, Next(summary, index, rounding)), OpenMarker(f))
    ensures Occurs(MarkerHost(f, summary), OpenMarker(f))
  {
    ChunkSolid(f, summary, index);
    var kept := ShrinkAbbreviates(Chunks(summary)[index], rounding);
    HostOfNext(f, summary, index, kept + [ELLIPSIS]);
    if !(summary.splitTurnPrefix.Some? && index == 0) {
      NoNewMarker(f, summary, if summary.splitTurnPrefix.None? then index else index - 1, kept);
    }
  }

  lemma StaysStable(f: Format, summary: Summary, index: nat, rounding: Rounding)
    requires FormatOk(f) && WellShaped(f, summary) && index < |Chunks(summary)| && |Chunks(summary)[index]| > 2
    requires Stable(f, summary)
    ensures Stable(f, Next(summary, index, rounding))
  {
    ReplaceStep(f, summary, index, rounding);
    if Occurs(MarkerHost(f, Next(summary, index, rounding)), OpenMarker(f)) {
      StaysUnmarked(f, summary, index, rounding);
    }
  }

  // What every round of repairing `original` preserves.
  ghost predicate Repaired(f: Format, summary: Summary, original: Summary) {
    && WellShaped(f, summary)
    && Shortened(summary, original)
    && (Stable(f, original) ==> Stable(f, summary))
  }

  lemma RepairedNext(f: Format, summary: Summary, original: Summary, target: nat, rounding: Rounding)
    requires FormatOk(f) && Repaired(f, summary, original)
    requires target < |Chunks(summary)| && |Chunks(summary)[target]| > 2
    ensures Repaired(f, Next(summary, target, rounding), original)
  {
    ReplaceStep(f, summary, target, rounding);
    ShortenedTransitive(Next(summary, target, rounding), summary, original);
    if Stable(f, summary) { StaysStable(f, summary, target, rounding); }
  }

  lemma RoundsPreserve(f: Format, original: Summary, maxTokens: nat, rounding: Rounding)
    requires FormatOk(f)
    ensures Preserves((s: Summary) => Repaired(f, s, original), Fits(f, maxTokens), Round(rounding))
  {
    var next := Round(rounding);
    forall s: Summary | Repaired(f, s, original) && next(s).Some? ensures Repaired(f, next(s).value, original) {
      var target := Largest(Chunks(s), |Chunks(s)|).value;
      assert next(s).value == Next(s, target, rounding);
      RepairedNext(f, s, original, target, rounding);
    }
  }

  // A repaired summary fits the limit and keeps its seven sections, each one an
  // abbreviation of what it was; if the original could be printed and parsed
  // again, so can the repaired one.
  lemma RepairSound(f: Format, original: Summary, maxTokens: nat, rounding: Rounding, attempts: nat)
    requires FormatOk(f) && WellShaped(f, original)
    ensures var r := Improve(original, Fits(f, maxTokens), Round(rounding), attempts);
      r.Some? ==> Repaired(f, r.value, original) && EstimateTokens(Render(f, r.value)) <= maxTokens
  {
    RoundsPreserve(f, original, maxTokens, rounding);
    ImproveKeeps(original, (s: Summary) => Repaired(f, s, original), Fits(f, maxTokens), Round(rounding), attempts);
  }

  // How often a text of n characters can be shortened, at most: seven tenths are
  // kept each time, and one character is where it ends.
  function Shrinks(n: nat): nat {
    if n <= 1 then 0 else 1 + Shrinks(Max(1, 7 * n / 10))
  }

  lemma {:induction false} ShrinksRises(m: nat, n: nat)
    requires m <= n
    ensures Shrinks(m) <= Shrinks(n)
  {
    if m > 1 { ShrinksRises(Max(1, 7 * m / 10), Max(1, 7 * n / 10)); }
  }

  function EffortsOf(chunks: seq<string>): (efforts: seq<nat>)
    ensures |efforts| == |chunks| && forall i :: 0 <= i < |chunks| ==> efforts[i] == Shrinks(|Strip(chunks[i])|)
  {
    seq(|chunks|, i requires 0 <= i < |chunks| => Shrinks(|Strip(chunks[i])|))
  }

  // How many rounds the pieces leave to do, at most.
  function Effort(chunks: seq<string>): nat {
    Sum(EffortsOf(chunks))
  }

  lemma {:induction false} SumShrinks(sizes: seq<nat>, index: nat, size: nat)
    requires index < |sizes| && size < sizes[index]
    ensures Sum(sizes[index := size]) < Sum(sizes)
  {
    var n := |sizes| - 1;
    if index < n {
      assert sizes[index := size][..n] == sizes[..n][index := size];
      SumShrinks(sizes[..n], index, size);
    } else {
      assert sizes[index := size][..n] == sizes[..n];
    }
  }

  lemma ReplacedEffort(chunks: seq<string>, index: nat, text: string)
    requires index < |chunks| && Shrinks(|Strip(text)|) < Shrinks(|Strip(chunks[index])|)
    ensures Effort(chunks[index := text]) < Effort(chunks)
  {
    assert EffortsOf(chunks[index := text]) == EffortsOf(chunks)[index := Shrinks(|Strip(text)|)];
    SumShrinks(EffortsOf(chunks), index, Shrinks(|Strip(text)|));
  }

  lemma ShrinkSpends(value: string, rounding: Rounding)
    requires Solid(value) && |value| > 2
    ensures Shrinks(|Strip(ShrinkText(value, rounding))|) < Shrinks(|Strip(value)|)
  {
    var n := |Strip(value)|;
    ShrinkKeeps(value, rounding);
    ShrinksRises(|Strip(ShrinkText(value, rounding))|, Max(1, 7 * n / 10));
  }

  lemma ShrinkKeeps(value: string, rounding: Rounding)
    requires Solid(value) && |value| > 2
    ensures |Strip(ShrinkText(value, rounding))| <= Max(1, 7 * |Strip(value)| / 10)
  {
    var characters := Strip(value);
    TrimEndIsPrefix(characters[..KeptLength(|characters|, rounding)]);
    ShrinkStrict(value, rounding);
  }

  lemma NextEffort(f: Format, summary: Summary, target: nat, rounding: Rounding)
    requires WellShaped(f, summary) && target < |Chunks(summary)| && |Chunks(summary)[target]| > 2
    ensures Effort(Chunks(Next(summary, target, rounding))) < Effort(Chunks(summary))
  {
    var chunk := Chunks(summary)[target];
    ChunkSolid(f, summary, target);
    ShrinkSpends(chunk, rounding);
    ReplacedChunks(summary, target, ShrinkText(chunk, rounding));
    ReplacedEffort(Chunks(summary), target, ShrinkText(chunk, rounding));
  }

  lemma RoundsDecrease(f: Format, original: Summary, maxTokens: nat, rounding: Rounding)
    ensures Decreases((s: Summary) => Effort(Chunks(s)), (s: Summary) => Repaired(f, s, original), Fits(f, maxTokens),
                      Round(rounding))
  {
    var next := Round(rounding);
    forall s: Summary | Repaired(f, s, original) && next(s).Some?
      ensures Effort(Chunks(next(s).value)) < Effort(Chunks(s))
    {
      var target := Largest(Chunks(s), |Chunks(s)|).value;
      assert next(s).value == Next(s, target, rounding);
      NextEffort(f, s, target, rounding);
    }
  }

  // Given enough attempts, the repair only gives up on a summary whose pieces
  // cannot be shortened any further.
  lemma RepairGivesUp(f: Format, original: Summary, maxTokens: nat, rounding: Rounding, attempts: nat)
    requires FormatOk(f) && WellShaped(f, original)
    requires Improve(original, Fits(f, maxTokens), Round(rounding), attempts).None?
        && attempts > Effort(Chunks(original))
    ensures exists last ::
      && Repaired(f, last, original) && EstimateTokens(Render(f, last)) > maxTokens
      && forall j :: 0 <= j < |Chunks(last)| ==> |Chunks(last)[j]| <= 2
  {
    var good := (s: Summary) => Repaired(f, s, original);
    RoundsPreserve(f, original, maxTokens, rounding);
    RoundsDecrease(f, original, maxTokens, rounding);
    ImproveGivesUp(original, (s: Summary) => Effort(Chunks(s)), good, Fits(f, maxTokens), Round(rounding), attempts);
    var last :| Stuck(last, good, Fits(f, maxTokens), Round(rounding));
    LargestFound(Chunks(last), |Chunks(last)|);
    assert Repaired(f, last, original);
  }

  function PowerOfTwo(k: nat): nat {
    if k == 0 then 1 else 2 * PowerOfTwo(k - 1)
  }

  // Two rounds halve a text.
  lemma {:induction false} ShrinksBounded(n: nat, k: nat)
    requires n < PowerOfTwo(k + 1)
    ensures Shrinks(n) <= 2 * k
  {
    if n > 1 {
      var once := Max(1, 7 * n / 10);
      if once > 1 {
        assert k > 0;
        ShrinksBounded(Max(1, 7 * once / 10), k - 1);
      }
    }
  }

  // Far more than one section of a real summary ever holds.
  const LONG_PIECE := 65_536

  lemma LongPiece(n: nat)
    requires n < LONG_PIECE
    ensures Shrinks(n) <= 30
  {
    assert PowerOfTwo(4) == 16;
    assert PowerOfTwo(8) == 256;
    assert PowerOfTwo(12) == 4096;
    assert PowerOfTwo(16) == 65_536;
    ShrinksBounded(n, 15);
  }

  lemma {:induction false} EffortBounded(chunks: seq<string>)
    requires forall j :: 0 <= j < |chunks| ==> |chunks[j]| < LONG_PIECE
    ensures Effort(chunks) <= 30 * |chunks|
  {
    if chunks != [] {
      var n := |chunks| - 1;
      assert EffortsOf(chunks)[..n] == EffortsOf(chunks[..n]);
      EffortBounded(chunks[..n]);
      LongPiece(|Strip(chunks[n])|);
    }
  }

  // The attempts the program allows are enough for eight pieces of any realistic size.
  lemma AttemptsSuffice(f: Format, original: Summary, maxTokens: nat, rounding: Rounding)
    requires FormatOk(f) && WellShaped(f, original) && |f.headings| <= 7
    requires forall j :: 0 <= j < |Chunks(original)| ==> |Chunks(original)[j]| < LONG_PIECE
    requires Improve(original, Fits(f, maxTokens), Round(rounding), REPAIR_ATTEMPTS).None?
    ensures exists last ::
      && Repaired(f, last, original) && EstimateTokens(Render(f, last)) > maxTokens
      && forall j :: 0 <= j < |Chunks(last)| ==> |Chunks(last)[j]| <= 2
  {
    EffortBounded(Chunks(original));
    RepairGivesUp(f, original, maxTokens, rounding, REPAIR_ATTEMPTS);
  }

  // A repaired text passes validation whenever the summary it came from prints
  // back to itself.
  lemma RepairedValidates(f: Format, summary: string, maxTokens: int, isSplitTurn: bool, rounding: Rounding)
    requires FormatOk(f)
    requires var r := Repair(f, summary, maxTokens, isSplitTurn, rounding); r.Ok? && r.value.Some?
    requires var parsed := Parse(f, Trim(summary), isSplitTurn).value;
      Parse(f, Render(f, parsed), isSplitTurn) == Ok(parsed)
    ensures var repaired := Repair(f, summary, maxTokens, isSplitTurn, rounding).value.value;
      Validate(f, repaired, maxTokens, isSplitTurn) == Ok(Validated(repaired, EstimateTokens(repaired)))
  {
    var parsed := Parse(f, Trim(summary), isSplitTurn).value;
    ParsedWellShaped(f, Trim(summary), isSplitTurn);
    Reparse(f, parsed);
    RepairSound(f, parsed, maxTokens, rounding, REPAIR_ATTEMPTS);
    var r := Improve(parsed, Fits(f, maxTokens), Round(rounding), REPAIR_ATTEMPTS).value;
    Reparse(f, r);
    RenderTrimmed(f, r);
  }

  // Whatever validates is not blank.
  lemma ValidatedNotBlank(f: Format, summary: string, maxTokens: int, isSplitTurn: bool)
    requires Validate(f, summary, maxTokens, isSplitTurn).Ok?
    ensures !Blank(Validate(f, summary, maxTokens, isSplitTurn).value.summary)
  {
    TrimIsSolid(summary);
    var t := Trim(summary);
    assert !IsSpace(t[0]);
  }
}
