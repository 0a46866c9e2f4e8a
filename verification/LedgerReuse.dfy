// A call id that is used again after its round was compacted away: everything
// seems to work, and the ledger can never be loaded again.
module LedgerReuse {
  import opened Prelude
  import opened Text
  import opened Messages
  import opened AtomicUnits
  import opened SnapshotIntegrity
  import opened Ledger
  import opened LedgerRepo
  import opened CompactionCut
  import opened CompactionPlan
  import opened CompactionEffect
  import opened SummaryRepair
  import opened SummarySample
  import opened CompactionFormat
  import opened CompactionCandidate
  import opened LedgerHost
  import opened LedgerRuns
  import opened LedgerReplay

  // A call id that is hidden but not new: the commit succeeds, the new messages are
  // shown, and the ledger can never be reloaded again.
  lemma ReuseBreaksReplay(sys: Sys, change: Change)
    requires Live(sys) && Replays(sys.store) && change.messages != [] && WellFormed(change.messages)
    requires Transact(sys.store, sys.held.ledgerHeadEntryId, WriteOf(change)).Ok?
    requires Disjoint(AllCallIds(sys.context.messages), AllCallIds(change.messages))
    requires !Disjoint(AllCallIds(Permanent(sys.store)), AllCallIds(change.messages))
    ensures var o := AfterCommit(sys, change, false);
      o.result.Ok? && !Replays(o.sys.store) && !AfterReload(o.sys, false).ok
  {
    CommitReplays(sys, change);
  }

  // --- a reset by the host itself -------------------------------------------

  // A behavioural reset with nothing in its way: the summariser answers with a text
  // that validates, nobody else writes, and the database takes the compaction.
  ghost predicate Unhindered(input: CompactInput, summary: string) {
    var attempt := input.first;
    && input.reason == BehavioralReset
    && NumbersOk(PrepareInput(None, attempt.contextTokens, input.contextWindowTokens, input.reserveTokens,
                              input.keepRecentTokens, input.reason))
    && attempt.outside == Outside(Continue, false, Some(summary), false, None, false)
    && attempt.meanwhile == [] && !attempt.storeFails
    && Validate(input.settings.format, summary, input.settings.maxTokens, false).Ok?
  }

  // Such resets exist: the real format, any limit of 280 tokens or more, and a short summary.
  function SampleReset(maxTokens: int): CompactInput {
    var attempt := Attempt(0, Outside(Continue, false, Some(SampleText()), false, None, false), [], false, 0);
    CompactInput(BehavioralReset, 0, false, 1, 0, 0, Settings(COMPACTION_FORMAT, maxTokens, {}), 0, 0, 0,
                 attempt, attempt, false)
  }

  lemma ResetsExist(maxTokens: int)
    requires 280 <= maxTokens <= MAX_SAFE_INTEGER
    ensures Unhindered(SampleReset(maxTokens), SampleText())
  {
    SampleValidates(maxTokens);
  }

  // The host holds the head of its ledger, shows it, and could load it.
  ghost predicate Caught(sys: Sys) {
    Live(sys) && Replays(sys.store) && sys.held.ledgerHeadEntryId == sys.store.runtime.ledgerHeadEntryId
  }

  lemma ActiveGrammar(entries: seq<Entry>)
    requires WellFormed(Rendered(entries))
    ensures Grammar(Bodies(Active(entries)))
  {
    PreambleHarmless(LatestCompaction(entries), Bodies(Active(entries)));
  }

  lemma ResetPrepares(entries: seq<Entry>, input: PrepareInput, estimate: Estimator) returns (plan: Plan)
    requires NumbersOk(input) && input.reason == BehavioralReset
        && input.previousCompaction == LatestCompaction(entries)
    requires Increasing(entries) && Active(entries) != [] && WellFormed(Rendered(entries))
    ensures Prepare(entries, Head(entries), input, estimate) == Ready(plan)
    ensures plan.tailEntries == [] && !plan.isSplitTurn
  {
    ActiveGrammar(entries);
    ResetIsReady(entries, input, estimate);
    ResetTheorem(entries, Head(entries), input, estimate);
    plan := Prepare(entries, Head(entries), input, estimate).plan;
  }

  lemma ResetPlanned(sys: Sys, input: CompactInput, summary: string, estimate: Estimator) returns (plan: Plan)
    requires Caught(sys) && Unhindered(input, summary) && Active(sys.store.entries) != []
    ensures Decide(sys.store, input, input.first, estimate) == Go(plan)
    ensures Planned(sys, input, input.first, plan, estimate)
    ensures plan.tailEntries == [] && !plan.isSplitTurn
  {
    ProjectShows(sys.store);
    plan := ResetPrepares(sys.store.entries, InputFor(sys.store, input, input.first), estimate);
    assert sys.store.entries == [] ==> Active(sys.store.entries) == [];
  }

  lemma ResetReady(sys: Sys, input: CompactInput, summary: string, plan: Plan, estimate: Estimator)
    requires Unhindered(input, summary) && Planned(sys, input, input.first, plan, estimate) && !plan.isSplitTurn
    ensures CandidateOf(sys, input, input.first, plan).ReadyCandidate?
  {
    var v := Validate(input.settings.format, summary, input.settings.maxTokens, false).value;
    ValidatedNotBlank(input.settings.format, summary, input.settings.maxTokens, false);
    PlannedBumped(sys, input, input.first, plan, estimate);
    TrialSucceeds(sys.store.entries, Bumped(sys.store.runtime), plan, InputFor(sys.store, input, input.first),
                  estimate, v, 0);
  }

  lemma ProjectedPayload(entries: seq<Entry>, id: nat, payload: Payload, runtime: RuntimeState)
    requires Project(WithCompaction(entries, id, payload), runtime).Ok?
    ensures PayloadOk(payload)
  {
    assert Readable(WithCompaction(entries, id, payload)[|entries|]);
  }

  lemma HeadPositive(store: Store)
    requires Sound(store)
    ensures store.runtime.ledgerHeadEntryId != Some(0)
  {
    if store.entries != [] { assert Readable(store.entries[|store.entries| - 1]); }
  }

  // The database takes a readable payload under the head of the ledger.
  lemma PayloadTaken(sys: Sys, attempt: Attempt, plan: Plan, payload: Payload)
    requires Sound(sys.store) && PayloadOk(payload) && attempt.meanwhile == []
    requires plan.expectedHeadEntryId == Head(sys.store.entries)
    ensures AppendedStore(sys, attempt, plan, payload).Ok?
  {
    HeadPositive(sys.store);
  }

  lemma CandidatePayloadOk(sys: Sys, input: CompactInput, plan: Plan, estimate: Estimator)
    requires Planned(sys, input, input.first, plan, estimate)
    requires CandidateOf(sys, input, input.first, plan).ReadyCandidate?
    ensures PayloadOk(CandidateOf(sys, input, input.first, plan).payload)
  {
    var entries := sys.store.entries;
    var id := Head(entries).value + 1;
    var other := sys.store.runtime.(ledgerHeadEntryId := Some(id));
    CandidateExact(sys, input, input.first, plan, estimate, id, other);
    ProjectedPayload(entries, id, CandidateOf(sys, input, input.first, plan).payload, other);
  }

  lemma TakenIsShown(sys: Sys, attempt: Attempt, plan: Plan, candidate: Candidate)
    requires candidate.ReadyCandidate? && WellFormed(candidate.projection.snapshot.messages)
    requires AppendedStore(sys, attempt, plan, candidate.payload).Ok? && !attempt.storeFails
    ensures EndOfAppend(sys, attempt, plan, candidate).Shown?
  {
  }

  lemma ResetAppends(sys: Sys, input: CompactInput, summary: string, plan: Plan, estimate: Estimator)
    requires Unhindered(input, summary) && Planned(sys, input, input.first, plan, estimate)
    requires CandidateOf(sys, input, input.first, plan).ReadyCandidate?
    ensures EndOfAppend(sys, input.first, plan, CandidateOf(sys, input, input.first, plan)).Shown?
  {
    var entries := sys.store.entries;
    CandidatePayloadOk(sys, input, plan, estimate);
    CandidateShown(sys, input, input.first, plan, estimate);
    PlanSplits(entries, Head(entries), InputFor(sys.store, input, input.first), estimate);
    PayloadTaken(sys, input.first, plan, CandidateOf(sys, input, input.first, plan).payload);
    TakenIsShown(sys, input.first, plan, CandidateOf(sys, input, input.first, plan));
  }

  // What is on display after an append that was shown, reloaded or not.
  lemma ShownEnds(after: Sys, input: CompactInput, candidate: Candidate, t: Store)
    requires candidate.ReadyCandidate? && Shows(t, candidate)
    ensures var o := AfterEnd(after, input, candidate, Shown(t));
      && o.outcome == Compacted && o.sys.store == t && o.sys.held == t.runtime
      && o.sys.context.messages == Rendered(t.entries)
  {
    ProjectShows(t);
  }

  lemma FirstAttemptCounts(sys: Sys, input: CompactInput, plan: Plan, estimate: Estimator)
    requires input.reason == BehavioralReset && Decide(sys.store, input, input.first, estimate) == Go(plan)
    requires CandidateOf(sys, input, input.first, plan).ReadyCandidate?
    requires AfterAppend(sys, input, input.first, plan, CandidateOf(sys, input, input.first, plan)).outcome == Compacted
    ensures AfterCompact(sys, input, estimate)
         == AfterAppend(sys, input, input.first, plan, CandidateOf(sys, input, input.first, plan))
  {
  }

  // A compaction that keeps no message: no call id stays visible, and all of them stay stored.
  lemma NothingKept(entries: seq<Entry>, id: nat, payload: Payload)
    requires Active(WithCompaction(entries, id, payload)) == []
    ensures AllCallIds(Rendered(WithCompaction(entries, id, payload))) == []
    ensures Stored(WithCompaction(entries, id, payload)) == Stored(entries)
  {
    var compacted := WithCompaction(entries, id, payload);
    CompactedLatest(entries, id, payload);
    PreambleHarmless(LatestCompaction(compacted), Bodies(Active(compacted)));
  }

  // The ledger ends with the planned compaction, under the id the database gave it.
  ghost predicate AppendedAs(sys: Sys, t: Store, input: CompactInput, plan: Plan, v: Validated, estimate: Estimator) {
    && Planned(sys, input, input.first, plan, estimate) && plan.tailEntries == []
    && t.entries == WithCompaction(sys.store.entries, NextId(sys.store.entries, input.first.gap),
                                   PayloadOf(plan, v.summary, v.tokens))
  }

  lemma PayloadParts(sys: Sys, input: CompactInput, plan: Plan, candidate: Candidate) returns (v: Validated)
    requires candidate == CandidateOf(sys, input, input.first, plan) && candidate.ReadyCandidate?
    ensures candidate.payload == PayloadOf(plan, v.summary, v.tokens)
  {
    v := ReadyParts(input.settings, sys.store.entries, Bumped(sys.store.runtime), plan, input.first.outside);
  }

  // The reset goes through: nothing of what was visible stays, all of it is kept.
  lemma ResetHides(sys: Sys, input: CompactInput, summary: string, estimate: Estimator)
    returns (plan: Plan, v: Validated)
    requires Caught(sys) && Unhindered(input, summary) && Active(sys.store.entries) != []
    ensures var o := AfterCompact(sys, input, estimate);
      && o.outcome == Compacted && Caught(o.sys)
      && AllCallIds(o.sys.context.messages) == [] && Permanent(o.sys.store) == Permanent(sys.store)
      && AppendedAs(sys, o.sys.store, input, plan, v, estimate)
  {
    plan := ResetPlanned(sys, input, summary, estimate);
    ResetReady(sys, input, summary, plan, estimate);
    ResetAppends(sys, input, summary, plan, estimate);
    CompactKeepsLive(sys, input, estimate);
    v := ResetShows(sys, input, plan, CandidateOf(sys, input, input.first, plan), estimate);
  }

  lemma ResetShows(sys: Sys, input: CompactInput, plan: Plan, candidate: Candidate, estimate: Estimator)
    returns (v: Validated)
    requires Planned(sys, input, input.first, plan, estimate) && plan.tailEntries == []
    requires input.reason == BehavioralReset && Decide(sys.store, input, input.first, estimate) == Go(plan)
    requires candidate == CandidateOf(sys, input, input.first, plan) && candidate.ReadyCandidate?
    requires EndOfAppend(sys, input.first, plan, candidate).Shown?
    ensures var o := AfterCompact(sys, input, estimate);
      && o.outcome == Compacted && Replays(o.sys.store)
      && o.sys.held.ledgerHeadEntryId == o.sys.store.runtime.ledgerHeadEntryId
      && AllCallIds(o.sys.context.messages) == [] && Permanent(o.sys.store) == Permanent(sys.store)
      && AppendedAs(sys, o.sys.store, input, plan, v, estimate)
  {
    var t := CommittedCompaction(sys, input, input.first, plan, estimate);
    ShownEnds(sys.(store := Foreign(sys.store, input.first.meanwhile)), input, candidate, t);
    NothingKept(sys.store.entries, NextId(sys.store.entries, input.first.gap), candidate.payload);
    v := PayloadParts(sys, input, plan, candidate);
    FirstAttemptCounts(sys, input, plan, estimate);
  }

  // --- the same round again -------------------------------------------------

  lemma SharedId(a: seq<string>, b: seq<string>, before: seq<string>)
    requires b != [] && a == before + b
    ensures !Disjoint(a, b)
  {
    assert a[|before|] == b[0];
  }

  ghost predicate MayCommit(sys: Sys, change: Change) {
    Caught(sys) && change.messages != [] && AllFieldsOk(change.messages) && Fresh(sys.store, change.messages)
  }

  lemma RowsStored(store: Store, next: Store, rows: seq<Entry>)
    requires Sound(next) && next.entries == store.entries + rows && MessagesOnly(rows) && Bodies(Stored(rows)) != []
    ensures Active(next.entries) != []
    ensures Permanent(next) == Permanent(store) + Bodies(Stored(rows))
  {
    ActiveAfterMessages(store.entries, rows);
    StoredConcat(store.entries, rows);
    BodiesConcat(Stored(store.entries), Stored(rows));
  }

  // A fresh commit is shown, and it is part of what is active and permanent.
  lemma FreshCommit(sys: Sys, change: Change)
    requires MayCommit(sys, change)
    ensures var next := AfterCommit(sys, change, false).sys;
      && Caught(next) && Active(next.store.entries) != []
      && Permanent(next.store) == Permanent(sys.store) + change.messages
  {
    HeadPositive(sys.store);
    CommitReplays(sys, change);
    CommitKeepsLive(sys, change, false);
    var rows := TransactKeepsSound(sys.store, sys.held.ledgerHeadEntryId, WriteOf(change));
    RowsStored(sys.store, AfterCommit(sys, change, false).sys.store, rows);
  }

  lemma RunMore(sys: Sys, steps: seq<Step>, step: Step, estimate: Estimator)
    ensures Run(sys, steps + [step], estimate) == LedgerRuns.Next(Run(sys, steps, estimate), step, estimate)
  {
    assert (steps + [step])[..|steps|] == steps;
  }

  // The messages are stored, but nothing of them is shown, and they come again.
  lemma ReuseWhenHidden(sys: Sys, change: Change, before: seq<Message>)
    requires Caught(sys) && AllCallIds(sys.context.messages) == []
    requires Permanent(sys.store) == before + change.messages && AllCallIds(change.messages) != []
    requires WellFormed(change.messages) && AllFieldsOk(change.messages)
    ensures var again := AfterCommit(sys, change, false);
      again.result.Ok? && !Replays(again.sys.store) && !AfterReload(again.sys, false).ok
  {
    AllCallIdsConcat(before, change.messages);
    SharedId(AllCallIds(Permanent(sys.store)), AllCallIds(change.messages), AllCallIds(before));
    HeadPositive(sys.store);
    assert change.messages != [];
    ReuseBreaksReplay(sys, change);
  }

  // From any state in step with its ledger: any fresh messages with a tool call in
  // them, a reset of the host's own, and the same messages again. All three steps
  // succeed and are shown; after the first two the ledger replays, and after the
  // third it never does.
  lemma ReuseAfterReset(sys: Sys, change: Change, input: CompactInput, summary: string, estimate: Estimator)
    requires MayCommit(sys, change)
    requires AllCallIds(change.messages) != [] && Unhindered(input, summary)
    ensures var committed := AfterCommit(sys, change, false).sys;
      var reset := AfterCompact(committed, input, estimate);
      var again := AfterCommit(reset.sys, change, false);
      && reset.outcome == Compacted && Replays(reset.sys.store)
      && again.result.Ok? && !Replays(again.sys.store) && !AfterReload(again.sys, false).ok
  {
    var committed := AfterCommit(sys, change, false).sys;
    FreshCommit(sys, change);
    var plan, v := ResetHides(committed, input, summary, estimate);
    ReuseWhenHidden(AfterCompact(committed, input, estimate).sys, change, Permanent(sys.store));
  }

  // --- from the start -------------------------------------------------------

  const CALL := ToolCall("a", "search", "{}")
  const ROUND: seq<Message> := [Assistant("", [CALL], None), Tool("a", ToolContent("done", false))]

  lemma RoundFields()
    ensures AllFieldsOk(ROUND) && forall i :: 0 <= i < |ROUND| ==> CallFieldsOk(ROUND[i])
  {
    assert !Blank("a") by { assert !IsSpace("a"[0]); }
    assert !Blank("search") by { assert !IsSpace("search"[0]); }
    TrimSolid("done");
  }

  lemma RoundFresh()
    ensures WellFormed(ROUND) && AllCallIds(ROUND) == ["a"] && AllFieldsOk(ROUND)
  {
    RoundFields();
    assert IsUnit(ROUND);
    UnitGrammar(ROUND);
    UnitCallIds(ROUND);
  }

  // An Agent that has not done anything yet, whatever its settings: one tool round,
  // a reset, and the provider uses the call id again.
  lemma ReusedIdBreaksReplay(runtime: RuntimeState, input: CompactInput, summary: string, estimate: Estimator)
    requires runtime.ledgerHeadEntryId == None && Unhindered(input, summary)
    ensures var round, reset := CommitStep(Change(ROUND, None, []), false), CompactStep(input);
      var end := Run(FreshAgent(runtime), [round, reset, round], estimate);
      && Replays(Run(FreshAgent(runtime), [round, reset], estimate).store)
      && Live(end) && !Replays(end.store) && !AfterReload(end, false).ok
  {
    var sys := FreshAgent(runtime);
    var change := Change(ROUND, None, []);
    var round, reset := CommitStep(change, false), CompactStep(input);
    FreshAgentReplays(runtime);
    RoundFresh();
    assert Permanent(sys.store) == [];
    ReuseAfterReset(sys, change, input, summary, estimate);
    AlwaysLive(sys, [round, reset, round], estimate);
    ThreeSteps(sys, round, reset, round, estimate);
  }

  lemma ThreeSteps(sys: Sys, a: Step, b: Step, c: Step, estimate: Estimator)
    ensures Run(sys, [a, b], estimate) == LedgerRuns.Next(LedgerRuns.Next(sys, a, estimate), b, estimate)
    ensures Run(sys, [a, b, c], estimate) == LedgerRuns.Next(Run(sys, [a, b], estimate), c, estimate)
  {
    RunMore(sys, [], a, estimate);
    assert [] + [a] == [a];
    RunMore(sys, [a], b, estimate);
    assert [a] + [b] == [a, b];
    RunMore(sys, [a, b], c, estimate);
    assert [a, b] + [c] == [a, b, c];
  }
}
