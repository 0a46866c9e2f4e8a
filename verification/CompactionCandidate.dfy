// From a plan to a compaction candidate: hooks, summariser, validation with one
// repair, and a trial projection under a guessed entry id.
module CompactionCandidate {
  import opened Prelude
  import opened Text
  import opened Attention
  import opened Ledger
  import opened CompactionCut
  import opened CompactionPlan
  import opened CompactionEffect
  import opened SectionLayout
  import opened SummaryText
  import opened SummaryRepair

  datatype HookDecision = Continue | Cancel(reason: string) | UseSummary(summary: string)

  // What hooks, abort signal and summariser do during one attempt; None is a summariser that throws.
  datatype Outside = Outside(
    hook: HookDecision,
    abortedAfterHook: bool,
    mainSummary: Option<string>,
    abortedAfterMain: bool,
    prefixSummary: Option<string>,
    abortedAtEnd: bool)

  datatype Settings = Settings(format: Format, maxTokens: int, rounding: Rounding)

  datatype InvalidReason = BadSummary(error: SummaryError) | CandidateProjectionInvalid

  datatype Candidate =
    | ReadyCandidate(payload: Payload, projection: Projection, summaryTokens: nat, repairCount: nat)
    | Cancelled(reason: string)
    | Invalid(invalidReason: InvalidReason, repairCount: nat)
    | Thrown

  const ABORTED := "aborted"

  // The text to validate, or the way the attempt ends before there is one.
  function RawSummary(f: Format, plan: Plan, outside: Outside): Result<string, Candidate> {
    match outside.hook
    case Cancel(reason) => Err(Cancelled(reason))
    case UseSummary(summary) =>
      if outside.abortedAfterHook || outside.abortedAtEnd then Err(Cancelled(ABORTED)) else Ok(summary)
    case Continue =>
      if outside.abortedAfterHook then Err(Cancelled(ABORTED))
      else if outside.mainSummary.None? then Err(Thrown)
      else if outside.abortedAfterMain then Err(Cancelled(ABORTED))
      else if plan.isSplitTurn && outside.prefixSummary.None? then Err(Thrown)
      else if outside.abortedAtEnd then Err(Cancelled(ABORTED))
      else if plan.isSplitTurn then Ok(CombineSplitTurn(f, outside.mainSummary.value, outside.prefixSummary.value))
      else Ok(outside.mainSummary.value)
  }

  datatype Checked = Checked(validation: Result<Validated, SummaryError>, repairCount: nat)

  function CheckSummary(settings: Settings, raw: string, isSplitTurn: bool): Checked {
    var first := Validate(settings.format, raw, settings.maxTokens, isSplitTurn);
    if first != Err(TokenLimit) then Checked(first, 0)
    else
      match Repair(settings.format, raw, settings.maxTokens, isSplitTurn, settings.rounding)
      case Ok(Some(repaired)) => Checked(Validate(settings.format, repaired, settings.maxTokens, isSplitTurn), 1)
      case _ => Checked(first, 1)
  }

  function Projected(payload: Payload, projected: Result<Projection, LedgerError>, tokens: nat,
                     repairCount: nat): Candidate {
    if projected.Err? then Invalid(CandidateProjectionInvalid, repairCount)
    else ReadyCandidate(payload, projected.value, tokens, repairCount)
  }

  // The projection of a payload that is tried out right behind the expected head.
  ghost function TryPayload(entries: seq<Entry>, runtime: RuntimeState, expectedHead: Option<nat>, payload: Payload,
                            tokens: nat, repairCount: nat): Candidate {
    if expectedHead.None? || runtime.ledgerHeadEntryId != expectedHead
    then Invalid(CandidateProjectionInvalid, repairCount)
    else
      var id := expectedHead.value + 1;
      Projected(payload, Project(WithCompaction(entries, id, payload), runtime.(ledgerHeadEntryId := Some(id))),
                tokens, repairCount)
  }

  ghost function TryProject(entries: seq<Entry>, runtime: RuntimeState, plan: Plan, v: Validated,
                            repairCount: nat): Candidate {
    TryPayload(entries, runtime, plan.expectedHeadEntryId, PayloadOf(plan, v.summary, v.tokens), v.tokens, repairCount)
  }

  // How an attempt ends once there is a text to check.
  ghost function CandidateFrom(entries: seq<Entry>, runtime: RuntimeState, plan: Plan, checked: Checked): Candidate {
    if checked.validation == Err(RangeError) then Thrown
    else if checked.validation.Err? then Invalid(BadSummary(checked.validation.error), checked.repairCount)
    else TryProject(entries, runtime, plan, checked.validation.value, checked.repairCount)
  }

  // Specification of one attempt.
  ghost function CandidateFor(settings: Settings, entries: seq<Entry>, runtime: RuntimeState, plan: Plan,
                              outside: Outside): Candidate {
    var raw := RawSummary(settings.format, plan, outside);
    if raw.Err? then raw.error
    else CandidateFrom(entries, runtime, plan, CheckSummary(settings, raw.value, plan.isSplitTurn))
  }

  method SummarizeCandidate(f: Format, plan: Plan, outside: Outside) returns (r: Result<string, Candidate>)
    ensures r == RawSummary(f, plan, outside)
  {
    var rawSummary;
    if outside.hook.Cancel? { return Err(Cancelled(outside.hook.reason)); }
    if outside.abortedAfterHook { return Err(Cancelled(ABORTED)); }
    if outside.hook.UseSummary? {
      rawSummary := outside.hook.summary;
    } else {
      if outside.mainSummary.None? { return Err(Thrown); }
      if outside.abortedAfterMain { return Err(Cancelled(ABORTED)); }
      if plan.isSplitTurn {
        if outside.prefixSummary.None? { return Err(Thrown); }
        rawSummary := CombineSplitTurn(f, outside.mainSummary.value, outside.prefixSummary.value);
      } else {
        rawSummary := outside.mainSummary.value;
      }
    }
    if outside.abortedAtEnd { return Err(Cancelled(ABORTED)); }
    return Ok(rawSummary);
  }

  method ValidateOrRepair(settings: Settings, rawSummary: string, isSplitTurn: bool)
    returns (validation: Result<Validated, SummaryError>, repairCount: nat)
    ensures Checked(validation, repairCount) == CheckSummary(settings, rawSummary, isSplitTurn)
  {
    repairCount := 0;
    validation := Validate(settings.format, rawSummary, settings.maxTokens, isSplitTurn);
    if validation == Err(TokenLimit) {
      repairCount := 1;
      var repaired := RepairOversizedCompactionSummary(settings.format, rawSummary, settings.maxTokens,
                                                       isSplitTurn, settings.rounding);
      if repaired.Ok? && repaired.value.Some? {
        validation := Validate(settings.format, repaired.value.value, settings.maxTokens, isSplitTurn);
      }
    }
  }

  method MakePayload(plan: Plan, v: Validated) returns (payload: Payload)
    ensures payload == PayloadOf(plan, v.summary, v.tokens)
  {
    var attention := CaptureMailboxAttentionState(Bodies(plan.entriesToSummarize));
    return PayloadOf(plan, v.summary, v.tokens).(attention := attention);
  }

  lemma TriedPayload(entries: seq<Entry>, runtime: RuntimeState, expectedHead: Option<nat>, payload: Payload,
                     tokens: nat, repairCount: nat, projection: Result<Projection, LedgerError>)
    requires expectedHead.Some? && runtime.ledgerHeadEntryId == expectedHead
    requires var id := expectedHead.value + 1;
      projection == Project(WithCompaction(entries, id, payload), runtime.(ledgerHeadEntryId := Some(id)))
    ensures TryPayload(entries, runtime, expectedHead, payload, tokens, repairCount)
         == Projected(payload, projection, tokens, repairCount)
  {
  }

  method ProjectPayload(entries: seq<Entry>, runtime: RuntimeState, expectedHead: Option<nat>, payload: Payload,
                        tokens: nat, repairCount: nat)
    returns (candidate: Candidate)
    ensures candidate == TryPayload(entries, runtime, expectedHead, payload, tokens, repairCount)
  {
    if expectedHead.None? || runtime.ledgerHeadEntryId != expectedHead {
      return Invalid(CandidateProjectionInvalid, repairCount);
    }
    var candidateId := expectedHead.value + 1;
    var compacted, next := WithCompaction(entries, candidateId,
                                          payload), runtime.(ledgerHeadEntryId := Some(candidateId));
    var projection := ProjectAgentLedger(compacted, next);
    TriedPayload(entries, runtime, expectedHead, payload, tokens, repairCount, projection);
    return Projected(payload, projection, tokens, repairCount);
  }

  method ProjectCandidate(entries: seq<Entry>, runtime: RuntimeState, plan: Plan, v: Validated, repairCount: nat)
    returns (candidate: Candidate)
    ensures candidate == TryProject(entries, runtime, plan, v, repairCount)
  {
    var payload := MakePayload(plan, v);
    candidate := ProjectPayload(entries, runtime, plan.expectedHeadEntryId, payload, v.tokens, repairCount);
  }

  method CreateCompactionCandidate(settings: Settings, entries: seq<Entry>, runtime: RuntimeState, plan: Plan,
                                   outside: Outside)
    returns (candidate: Candidate)
    ensures candidate == CandidateFor(settings, entries, runtime, plan, outside)
  {
    var rawSummary := SummarizeCandidate(settings.format, plan, outside);
    if rawSummary.Err? { return rawSummary.error; }
    var validation, repairCount := ValidateOrRepair(settings, rawSummary.value, plan.isSplitTurn);
    if validation == Err(RangeError) { return Thrown; }
    if validation.Err? { return Invalid(BadSummary(validation.error), repairCount); }
    candidate := ProjectCandidate(entries, runtime, plan, validation.value, repairCount);
  }

  // --- what a candidate is worth --------------------------------------------

  ghost predicate GoodSummary(settings: Settings, isSplitTurn: bool, v: Validated) {
    && !Blank(v.summary)
    && Parse(settings.format, v.summary, isSplitTurn).Ok?
    && v.tokens == EstimateTokens(v.summary) <= settings.maxTokens
  }

  lemma ValidatedGood(settings: Settings, summary: string, isSplitTurn: bool)
    requires Validate(settings.format, summary, settings.maxTokens, isSplitTurn).Ok?
    ensures GoodSummary(settings, isSplitTurn,
                        Validate(settings.format, summary, settings.maxTokens, isSplitTurn).value)
  {
    ValidatedNotBlank(settings.format, summary, settings.maxTokens, isSplitTurn);
  }

  // The validated text is the raw one or its repair.
  lemma CheckedText(settings: Settings, raw: string, isSplitTurn: bool) returns (text: string)
    requires CheckSummary(settings, raw, isSplitTurn).validation.Ok?
    ensures Validate(settings.format, text, settings.maxTokens, isSplitTurn)
        == CheckSummary(settings, raw, isSplitTurn).validation
  {
    var first := Validate(settings.format, raw, settings.maxTokens, isSplitTurn);
    text := if first.Ok? then raw
            else Repair(settings.format, raw, settings.maxTokens, isSplitTurn, settings.rounding).value.value;
  }

  lemma CheckedSummaryGood(settings: Settings, raw: string, isSplitTurn: bool)
    requires CheckSummary(settings, raw, isSplitTurn).validation.Ok?
    ensures GoodSummary(settings, isSplitTurn, CheckSummary(settings, raw, isSplitTurn).validation.value)
  {
    var text := CheckedText(settings, raw, isSplitTurn);
    ValidatedGood(settings, text, isSplitTurn);
  }

  // A plan prepared from a ledger that replays.
  ghost predicate PlannedFrom(entries: seq<Entry>, runtime: RuntimeState, plan: Plan, input: PrepareInput,
                              estimate: Estimator) {
    && Project(entries, runtime).Ok?
    && input.previousCompaction == LatestCompaction(entries)
    && Prepare(entries, Head(entries), input, estimate) == Ready(plan)
    && Head(entries).Some?
  }

  // The trial projection succeeds with any summary that is not blank.
  lemma TrialSucceeds(entries: seq<Entry>, runtime: RuntimeState, plan: Plan, input: PrepareInput, estimate: Estimator,
                      v: Validated, repairCount: nat)
    requires PlannedFrom(entries, runtime, plan, input, estimate) && !Blank(v.summary)
    ensures TryProject(entries, runtime, plan, v, repairCount).ReadyCandidate?
  {
    TrialProjects(entries, runtime, plan, input, estimate, v);
    var payload, id := PayloadOf(plan, v.summary, v.tokens), Head(entries).value + 1;
    TriedPayload(entries, runtime, plan.expectedHeadEntryId, payload, v.tokens, repairCount,
                 Project(WithCompaction(entries, id, payload), runtime.(ledgerHeadEntryId := Some(id))));
  }

  lemma TrialProjects(entries: seq<Entry>, runtime: RuntimeState, plan: Plan, input: PrepareInput, estimate: Estimator,
                      v: Validated)
    requires PlannedFrom(entries, runtime, plan, input, estimate) && !Blank(v.summary)
    ensures plan.expectedHeadEntryId == runtime.ledgerHeadEntryId == Head(entries)
    ensures var id := Head(entries).value + 1;
      Project(WithCompaction(entries, id, PayloadOf(plan, v.summary, v.tokens)),
              runtime.(ledgerHeadEntryId := Some(id))).Ok?
  {
    var id := Head(entries).value + 1;
    PlanSplits(entries, Head(entries), input, estimate);
    PreparedAlwaysProjects(entries, runtime, input, estimate, v.summary, v.tokens, id,
                           runtime.(ledgerHeadEntryId := Some(id)));
  }

  lemma NeverInvalidFrom(entries: seq<Entry>, runtime: RuntimeState, plan: Plan, input: PrepareInput,
                         estimate: Estimator,
                         checked: Checked)
    requires PlannedFrom(entries, runtime, plan, input, estimate)
    requires checked.validation.Ok? ==> !Blank(checked.validation.value.summary)
    ensures var c := CandidateFrom(entries, runtime, plan, checked);
      c.Invalid? ==> c.invalidReason != CandidateProjectionInvalid
  {
    if checked.validation.Ok? {
      TrialSucceeds(entries, runtime, plan, input, estimate, checked.validation.value, checked.repairCount);
    }
  }

  // No attempt on a plan prepared from a ledger that replays ends with an invalid
  // projection.
  lemma ProjectionNeverInvalid(settings: Settings, entries: seq<Entry>, runtime: RuntimeState, plan: Plan,
                               input: PrepareInput, estimate: Estimator, outside: Outside)
    requires PlannedFrom(entries, runtime, plan, input, estimate)
    ensures var c := CandidateFor(settings, entries, runtime, plan, outside);
      c.Invalid? ==> c.invalidReason != CandidateProjectionInvalid
  {
    var raw := RawSummary(settings.format, plan, outside);
    if raw.Ok? {
      var checked := CheckSummary(settings, raw.value, plan.isSplitTurn);
      if checked.validation.Ok? { CheckedSummaryGood(settings, raw.value, plan.isSplitTurn); }
      NeverInvalidFrom(entries, runtime, plan, input, estimate, checked);
    }
  }

  lemma ReadyParts(settings: Settings, entries: seq<Entry>, runtime: RuntimeState, plan: Plan, outside: Outside)
    returns (v: Validated)
    requires CandidateFor(settings, entries, runtime, plan, outside).ReadyCandidate?
    ensures var c := CandidateFor(settings, entries, runtime, plan, outside);
      && GoodSummary(settings, plan.isSplitTurn, v)
      && plan.expectedHeadEntryId.Some?
      && c.payload == PayloadOf(plan, v.summary, v.tokens) && c.summaryTokens == v.tokens
      && var id := plan.expectedHeadEntryId.value + 1;
         Project(WithCompaction(entries, id, c.payload), runtime.(ledgerHeadEntryId := Some(id))) == Ok(c.projection)
  {
    var raw := RawSummary(settings.format, plan, outside).value;
    v := CheckSummary(settings, raw, plan.isSplitTurn).validation.value;
    CheckedSummaryGood(settings, raw, plan.isSplitTurn);
  }

  // What is visible after the compaction under one id.
  lemma VisibleAt(entries: seq<Entry>, runtime: RuntimeState, plan: Plan, input: PrepareInput, estimate: Estimator,
                  v: Validated, id: nat, other: RuntimeState)
    requires PlannedFrom(entries, runtime, plan, input, estimate) && !Blank(v.summary)
    requires id > Head(entries).value && other.ledgerHeadEntryId == Some(id)
    ensures var payload := PayloadOf(plan, v.summary, v.tokens);
      var compacted := WithCompaction(entries, id, payload);
      && Project(compacted, other).Ok?
      && Project(compacted, other).value.snapshot == Snapshot(Rendered(compacted), other.conversationFocus)
      && Rendered(compacted) == [SummaryMessage(payload)] + MachineState(payload) + Bodies(plan.tailEntries)
      && Active(compacted) == plan.tailEntries
  {
    PreparedAlwaysProjects(entries, runtime, input, estimate, v.summary, v.tokens, id, other);
  }

  // The guessed id shows the same messages as any other one above the head.
  lemma SameAtAnyId(entries: seq<Entry>, runtime: RuntimeState, plan: Plan, input: PrepareInput, estimate: Estimator,
                    v: Validated, projection: Projection, id: nat, other: RuntimeState)
    requires PlannedFrom(entries, runtime, plan, input, estimate) && !Blank(v.summary)
    requires var guessed := Head(entries).value + 1;
      Project(WithCompaction(entries, guessed, PayloadOf(plan, v.summary, v.tokens)),
              runtime.(ledgerHeadEntryId := Some(guessed))) == Ok(projection)
    requires id > Head(entries).value && other.ledgerHeadEntryId == Some(id)
    ensures var compacted := WithCompaction(entries, id, PayloadOf(plan, v.summary, v.tokens));
      && Project(compacted, other).Ok?
      && Rendered(compacted) == projection.snapshot.messages
      && projection.snapshot.conversationFocus == runtime.conversationFocus
      && Active(compacted) == plan.tailEntries
  {
    var guessed := Head(entries).value + 1;
    VisibleAt(entries, runtime, plan, input, estimate, v, guessed, runtime.(ledgerHeadEntryId := Some(guessed)));
    VisibleAt(entries, runtime, plan, input, estimate, v, id, other);
  }

  // A ready candidate carries a valid summary within the limit, and the messages
  // it was projected to are the ones the ledger shows whatever id it is given.
  lemma ReadyCandidateIsExact(settings: Settings, entries: seq<Entry>, runtime: RuntimeState, plan: Plan,
                              input: PrepareInput, estimate: Estimator, outside: Outside, id: nat, other: RuntimeState)
    requires PlannedFrom(entries, runtime, plan, input, estimate)
    requires CandidateFor(settings, entries, runtime, plan, outside).ReadyCandidate?
    requires id > Head(entries).value && other.ledgerHeadEntryId == Some(id)
    ensures var c := CandidateFor(settings, entries, runtime, plan, outside);
      var compacted := WithCompaction(entries, id, c.payload);
      && Parse(settings.format, c.payload.summary, plan.isSplitTurn).Ok?
      && c.summaryTokens == EstimateTokens(c.payload.summary) <= settings.maxTokens
      && Project(compacted, other).Ok?
      && Rendered(compacted) == c.projection.snapshot.messages
      && c.projection.snapshot.conversationFocus == runtime.conversationFocus
      && Active(compacted) == plan.tailEntries
  {
    var v := ReadyParts(settings, entries, runtime, plan, outside);
    var c := CandidateFor(settings, entries, runtime, plan, outside);
    PlanSplits(entries, Head(entries), input, estimate);
    SameAtAnyId(entries, runtime, plan, input, estimate, v, c.projection, id, other);
  }
}
